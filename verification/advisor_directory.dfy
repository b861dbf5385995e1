/** The two directory utilities that resolve a client account to its
    advisor through two JSON tables: account entries (`account`, `sgCGE`,
    `clientName`, `nome_assessor`) and advisor entries (`advisorCgeCode`,
    `advisorName`, `email`, `phone`). */

/** `utils/search_advisor_email.SearchAdvisorEmail`: scans with `.get`,
    so a missing field reads as `None`, and misses are reported with a
    3-tuple. */
module SearchAdvisorEmail {
  import opened PyJson
  import opened Lookup

  /** The two tables `__init__` loads. */
  datatype Directory = Directory(accounts: seq<Json>, advisors: seq<Json>)

  function Load(accountsFile: DataFile, advisorsFile: DataFile): Directory {
    Directory(LoadJson(accountsFile), LoadJson(advisorsFile))
  }

  function AccountTest(account: Json): Json -> Eval<bool> {
    e => GetEquals("account", account, e)
  }

  function CodeTest(sgcge: Json): Json -> Eval<bool> {
    e => GetEquals("advisorCgeCode", sgcge, e)
  }

  /** Entry `i` is the first whose `field` equals `value`. */
  predicate FirstEntry(table: seq<Json>, field: string, value: Json, i: nat) {
    i < |table| && table[i].Obj? && PyEq(GetOr(table[i].fields, field, Null), value)
    && forall m :: 0 <= m < i ==> table[m].Obj? && !PyEq(GetOr(table[m].fields, field, Null), value)
  }

  /** No entry has `field` equal to `value`, and every entry is a dict. */
  predicate NoEntry(table: seq<Json>, field: string, value: Json) {
    forall m :: 0 <= m < |table| ==> table[m].Obj? && !PyEq(GetOr(table[m].fields, field, Null), value)
  }

  /** The scan raises: a non-dict entry comes before any match. */
  predicate NonDictFirst(table: seq<Json>, field: string, value: Json) {
    exists j :: 0 <= j < |table| && !table[j].Obj?
      && forall m :: 0 <= m < j ==> table[m].Obj? && !PyEq(GetOr(table[m].fields, field, Null), value)
  }

  /** The `.get` scan over `table` for `field == value`. */
  function Scan(table: seq<Json>, field: string, value: Json): (r: Eval<Option<nat>>)
    ensures forall i: nat :: FirstEntry(table, field, value, i) ==> r == Ok(Some(i))
    ensures r.Ok? && r.value.Some? ==> FirstEntry(table, field, value, r.value.value)
    ensures r == Ok(None) <==> NoEntry(table, field, value)
    ensures r.Raised? <==> NonDictFirst(table, field, value)
  {
    var test := e => GetEquals(field, value, e);
    var r := FirstMatch(table, test);
    assert forall m :: 0 <= m < |table| ==>
      (test(table[m]) == Ok(false) <==> table[m].Obj? && !PyEq(GetOr(table[m].fields, field, Null), value));
    assert forall m :: 0 <= m < |table| ==> (test(table[m]).Raised? <==> !table[m].Obj?);
    forall i: nat | FirstEntry(table, field, value, i) ensures r == Ok(Some(i)) {
      FirstMatchIsFirst(table, test, i);
    }
    r
  }

  /** `find_sgcge_by_account` (`field` is `sgCGE`) and
      `find_client_name_by_account` (`field` is `clientName`): the field of
      the first entry whose `account` equals `account` (no coercion between
      strings and numbers), `None` when the field is absent or there is no
      such entry. */
  function FindByAccount(d: Directory, account: Json, field: string): (r: Eval<Json>)
    ensures forall i: nat :: FirstEntry(d.accounts, "account", account, i) ==>
      r == Ok(GetOr(d.accounts[i].fields, field, Null))
    ensures NoEntry(d.accounts, "account", account) ==> r == Ok(Null)
    ensures r.Raised? <==> NonDictFirst(d.accounts, "account", account)
  {
    match Scan(d.accounts, "account", account)
    case Raised => Raised
    case Ok(None) => Ok(Null)
    case Ok(Some(i)) => Ok(GetOr(d.accounts[i].fields, field, Null))
  }

  /** `find_advisor_email_and_name`: `(email, advisorName)` of the first
      advisor whose `advisorCgeCode` equals `sgcge`, else `(None, None)`. */
  function FindAdvisorEmailAndName(d: Directory, sgcge: Json): (r: Eval<(Json, Json)>)
    ensures forall i: nat :: FirstEntry(d.advisors, "advisorCgeCode", sgcge, i) ==>
      r == Ok((GetOr(d.advisors[i].fields, "email", Null), GetOr(d.advisors[i].fields, "advisorName", Null)))
    ensures NoEntry(d.advisors, "advisorCgeCode", sgcge) ==> r == Ok((Null, Null))
    ensures r.Raised? <==> NonDictFirst(d.advisors, "advisorCgeCode", sgcge)
  {
    match Scan(d.advisors, "advisorCgeCode", sgcge)
    case Raised => Raised
    case Ok(None) => Ok((Null, Null))
    case Ok(Some(i)) => Ok((GetOr(d.advisors[i].fields, "email", Null), GetOr(d.advisors[i].fields, "advisorName", Null)))
  }

  /** The two result shapes of `get_client_and_advisor_info`: the 3-tuple
      `(client_name, None, None)` of a miss and the 4-tuple
      `(client_name, advisor_name, email, sgcge)` of a hit. */
  datatype Info =
    | Partial(clientName: Json)
    | Complete(clientName: Json, advisorName: Json, email: Json, sgcge: Json)

  /** `get_client_and_advisor_info`.  Both account scans run with the same
      test over the same table, so they raise together. */
  function GetClientAndAdvisorInfo(d: Directory, account: Json): (r: Eval<Info>)
    ensures r.Raised? <==>
      FindByAccount(d, account, "sgCGE").Raised?
      || (FindByAccount(d, account, "sgCGE").value != Null && FindAdvisorEmailAndName(d, FindByAccount(d, account, "sgCGE").value).Raised?)
    ensures r.Ok? ==> FindByAccount(d, account, "clientName") == Ok(r.value.clientName)
    ensures r.Ok? && r.value.Complete? ==>
      r.value.email != Null && r.value.advisorName != Null && r.value.sgcge != Null
      && FindByAccount(d, account, "sgCGE") == Ok(r.value.sgcge)
      && FindAdvisorEmailAndName(d, r.value.sgcge) == Ok((r.value.email, r.value.advisorName))
    ensures r.Ok? && r.value.Partial? ==>
      FindByAccount(d, account, "sgCGE") == Ok(Null)
      || FindAdvisorEmailAndName(d, FindByAccount(d, account, "sgCGE").value).value.0 == Null
      || FindAdvisorEmailAndName(d, FindByAccount(d, account, "sgCGE").value).value.1 == Null
    ensures NoEntry(d.accounts, "account", account) ==> r == Ok(Partial(Null))
  {
    match FindByAccount(d, account, "sgCGE")
    case Raised => Raised
    case Ok(sgcge) =>
      match FindByAccount(d, account, "clientName")
      case Raised => Raised
      case Ok(clientName) =>
        if sgcge == Null then Ok(Partial(clientName))
        else
          match FindAdvisorEmailAndName(d, sgcge)
          case Raised => Raised
          case Ok((email, advisorName)) =>
            if email == Null || advisorName == Null then Ok(Partial(clientName))
            else Ok(Complete(clientName, advisorName, email, sgcge))
  }

  /** A missing or undecodable data file leaves an empty table, so every
      lookup misses without raising. */
  lemma UnreadableFilesMiss(accountsFile: DataFile, advisorsFile: DataFile, account: Json)
    requires !accountsFile.Decoded?
    ensures GetClientAndAdvisorInfo(Load(accountsFile, advisorsFile), account) == Ok(Partial(Null))
  {
    assert Load(accountsFile, advisorsFile).accounts == [];
  }
}

/** `utils/map_client_advisor_info.MapAdvisorInfo`: indexes the advisors
    by code, then subscripts, so a missing field raises, and misses are
    reported with 4-tuples. */
module MapAdvisorInfo {
  import opened PyJson
  import opened Lookup

  type Quad = (Json, Json, Json, Json)

  /** `account['account'] == account_number`. */
  function AccountTest(account: Json): Json -> Eval<bool> {
    e => IndexEquals("account", account, e)
  }

  const Unknown: Quad := (Null, Null, Null, Null)

  /** `advisor['advisorCgeCode']` as a dict key: a missing code raises
      `KeyError` (or `TypeError` on a non-dict), an unhashable one
      `TypeError`. */
  function Code(advisor: Json): Eval<Json> {
    match Index(advisor, "advisorCgeCode")
    case Raised => Raised
    case Ok(c) => if Hashable(c) then Ok(HashKey(c)) else Raised
  }

  /** No advisor after `i` has the same code. */
  predicate LastOfCode(advisors: seq<Json>, i: nat)
    requires i < |advisors|
  {
    forall j :: i < j < |advisors| ==> Code(advisors[j]) != Code(advisors[i])
  }

  function Codes(advisors: seq<Json>): set<Json>
    requires forall i :: 0 <= i < |advisors| ==> Code(advisors[i]).Ok?
  {
    set i | 0 <= i < |advisors| :: Code(advisors[i]).value
  }

  /** `{advisor['advisorCgeCode']: advisor for advisor in advisors}`:
      every code is a key, and a later advisor with an equal code replaces
      an earlier one. */
  function AdvisorIndex(advisors: seq<Json>): (r: Eval<map<Json, Json>>)
    ensures r.Ok? <==> forall i :: 0 <= i < |advisors| ==> Code(advisors[i]).Ok?
    ensures r.Ok? ==> r.value.Keys == Codes(advisors)
    ensures r.Ok? ==> forall i :: 0 <= i < |advisors| && LastOfCode(advisors, i) ==>
      r.value[Code(advisors[i]).value] == advisors[i]
    decreases |advisors|
  {
    if |advisors| == 0 then Ok(map[])
    else
      var n := |advisors| - 1;
      var init := advisors[..n];
      match AdvisorIndex(init)
      case Raised =>
        assert exists i :: 0 <= i < n && Code(init[i]).Raised?;
        Raised
      case Ok(m) =>
        match Code(advisors[n])
        case Raised => Raised
        case Ok(c) =>
          IndexStep(advisors, m, c);
          Ok(m[c := advisors[n]])
  }

  /** The index after the last advisor is added. */
  lemma {:induction false} IndexStep(advisors: seq<Json>, m: map<Json, Json>, c: Json)
    requires |advisors| > 0 && Code(advisors[|advisors| - 1]) == Ok(c)
    requires var init := advisors[..|advisors| - 1];
      (forall i :: 0 <= i < |init| ==> Code(init[i]).Ok?)
      && m.Keys == Codes(init)
      && forall i :: 0 <= i < |init| && LastOfCode(init, i) ==> m[Code(init[i]).value] == init[i]
    ensures forall i :: 0 <= i < |advisors| ==> Code(advisors[i]).Ok?
    ensures var m' := m[c := advisors[|advisors| - 1]];
      m'.Keys == Codes(advisors)
      && forall i :: 0 <= i < |advisors| && LastOfCode(advisors, i) ==> m'[Code(advisors[i]).value] == advisors[i]
  {
    var n := |advisors| - 1;
    var init := advisors[..n];
    assert forall i :: 0 <= i < n ==> init[i] == advisors[i];
    IndexStepKeys(advisors, m.Keys, c);
    IndexStepLast(advisors, m, c);
  }

  lemma {:induction false} IndexStepKeys(advisors: seq<Json>, keys: set<Json>, c: Json)
    requires |advisors| > 0 && Code(advisors[|advisors| - 1]) == Ok(c)
    requires forall i :: 0 <= i < |advisors| ==> Code(advisors[i]).Ok?
    requires keys == Codes(advisors[..|advisors| - 1])
    ensures keys + {c} == Codes(advisors)
  {
    var n := |advisors| - 1;
    var init := advisors[..n];
    assert forall i :: 0 <= i < n ==> init[i] == advisors[i];
    forall k | k in Codes(advisors) ensures k in keys + {c} {
      var i :| 0 <= i < |advisors| && Code(advisors[i]).value == k;
      if i < n { assert Code(init[i]).value in Codes(init); }
    }
    forall k | k in keys + {c} ensures k in Codes(advisors) {
      if k != c {
        var i :| 0 <= i < n && Code(init[i]).value == k;
        assert Code(advisors[i]).value == k;
      } else {
        assert Code(advisors[n]).value == c;
      }
    }
  }

  lemma {:induction false} IndexStepLast(advisors: seq<Json>, m: map<Json, Json>, c: Json)
    requires |advisors| > 0 && Code(advisors[|advisors| - 1]) == Ok(c)
    requires forall i :: 0 <= i < |advisors| ==> Code(advisors[i]).Ok?
    requires var init := advisors[..|advisors| - 1];
      forall i :: 0 <= i < |init| && LastOfCode(init, i) ==> Code(init[i]).value in m && m[Code(init[i]).value] == init[i]
    ensures var m' := m[c := advisors[|advisors| - 1]];
      forall i :: 0 <= i < |advisors| && LastOfCode(advisors, i) ==> m'[Code(advisors[i]).value] == advisors[i]
  {
    var n := |advisors| - 1;
    var init := advisors[..n];
    var m' := m[c := advisors[n]];
    forall i | 0 <= i < |advisors| && LastOfCode(advisors, i)
      ensures m'[Code(advisors[i]).value] == advisors[i]
    {
      if i < n {
        assert init[i] == advisors[i];
        assert Code(advisors[n]) != Code(advisors[i]);
        forall j | i < j < |init| ensures Code(init[j]) != Code(init[i]) {
          assert init[j] == advisors[j];
        }
        assert LastOfCode(init, i);
      }
    }
  }

  /** Entry `i` is the first account entry equal to `account` under
      subscripting. */
  predicate FirstAccount(accounts: seq<Json>, account: Json, i: nat) {
    i < |accounts| && AccountTest(account)(accounts[i]) == Ok(true)
    && PassedOver(accounts, AccountTest(account), i)
  }

  /** `map_accounts_to_advisors` once the account entry is found:
      the advisor's name, email and phone when its `sgCGE` is indexed,
      else the account's own `nome_assessor` with no email or phone. */
  function Resolve(entry: Json, index: map<Json, Json>): (r: Eval<Quad>)
    ensures r.Ok? ==> Index(entry, "clientName") == Ok(r.value.0)
    ensures r.Ok? && r.value.2 == Null && r.value.3 == Null && Index(entry, "sgCGE").Ok? ==>
      HashKey(Index(entry, "sgCGE").value) !in index || Index(index[HashKey(Index(entry, "sgCGE").value)], "email") == Ok(Null)
    ensures var code := Index(entry, "sgCGE");
      code.Ok? && Hashable(code.value) && HashKey(code.value) in index ==>
      var advisor := index[HashKey(code.value)];
      (r.Ok? <==> Index(entry, "clientName").Ok? && Index(advisor, "advisorName").Ok?
                  && Index(advisor, "email").Ok? && Index(advisor, "phone").Ok?)
      && (r.Ok? ==> r.value == (Index(entry, "clientName").value, Index(advisor, "advisorName").value,
                                Index(advisor, "email").value, Index(advisor, "phone").value))
    ensures var code := Index(entry, "sgCGE");
      code.Ok? && Hashable(code.value) && HashKey(code.value) !in index ==>
      (r.Ok? <==> Index(entry, "clientName").Ok? && Index(entry, "nome_assessor").Ok?)
      && (r.Ok? ==> r.value == (Index(entry, "clientName").value, Index(entry, "nome_assessor").value, Null, Null))
    ensures r.Ok? ==> Index(entry, "sgCGE").Ok? && Hashable(Index(entry, "sgCGE").value)
  {
    var code :- Index(entry, "sgCGE");
    if !Hashable(code) then Raised
    else if HashKey(code) in index then
      var advisor := index[HashKey(code)];
      var clientName :- Index(entry, "clientName");
      var advisorName :- Index(advisor, "advisorName");
      var email :- Index(advisor, "email");
      var phone :- Index(advisor, "phone");
      Ok((clientName, advisorName, email, phone))
    else
      var clientName :- Index(entry, "clientName");
      var advisorName :- Index(entry, "nome_assessor");
      Ok((clientName, advisorName, Null, Null))
  }

  /** `map_accounts_to_advisors`.  The advisor index is built first, so a
      malformed advisor table raises even for an unknown account; only the
      first matching account entry decides; an unknown account is
      `(None, None, None, None)`. */
  function MapAccountsToAdvisors(accounts: seq<Json>, advisors: seq<Json>, account: Json): (r: Eval<Quad>)
    ensures AdvisorIndex(advisors).Raised? ==> r.Raised?
    ensures AdvisorIndex(advisors).Ok? && PassedOver(accounts, AccountTest(account), |accounts|) ==>
      r == Ok(Unknown)
    ensures AdvisorIndex(advisors).Ok? ==> forall i: nat :: FirstAccount(accounts, account, i) ==>
      r == Resolve(accounts[i], AdvisorIndex(advisors).value)
  {
    match AdvisorIndex(advisors)
    case Raised => Raised
    case Ok(index) =>
      var test := AccountTest(account);
      match FirstMatch(accounts, test)
      case Raised => Raised
      case Ok(None) => Ok(Unknown)
      case Ok(Some(i)) =>
        assert forall j: nat :: FirstAccount(accounts, account, j) ==> j == i by {
          forall j: nat | FirstAccount(accounts, account, j) ensures j == i {
            FirstMatchIsFirst(accounts, test, j);
          }
        }
        Resolve(accounts[i], index)
  }

  /** Unreadable data files give empty tables, so every account maps to
      `(None, None, None, None)`. */
  lemma UnreadableFilesUnknown(accountsFile: DataFile, advisorsFile: DataFile, account: Json)
    requires !accountsFile.Decoded? && !advisorsFile.Decoded?
    ensures MapAccountsToAdvisors(LoadJson(accountsFile), LoadJson(advisorsFile), account) == Ok(Unknown)
  {
    assert LoadJson(accountsFile) == [] && LoadJson(advisorsFile) == [];
  }

  /** Two advisors sharing a code: the account resolves to the later
      one. */
  lemma {:induction false} LaterAdvisorWins(entry: Json, first: Json, second: Json, account: Json)
    requires Code(first).Ok? && Code(second) == Code(first)
    requires entry.Obj? && entry.fields.Keys == {"account", "sgCGE", "clientName"}
    requires entry.fields["account"] == account && Hashable(entry.fields["sgCGE"])
    requires HashKey(entry.fields["sgCGE"]) == Code(first).value
    requires second.Obj? && "advisorName" in second.fields && "email" in second.fields && "phone" in second.fields
    ensures MapAccountsToAdvisors([entry], [first, second], account)
      == Ok((entry.fields["clientName"], second.fields["advisorName"], second.fields["email"], second.fields["phone"]))
  {
    var advisors := [first, second];
    assert LastOfCode(advisors, 1);
    var index := AdvisorIndex(advisors).value;
    assert index[Code(first).value] == second;
    assert PyEq(account, account);
    assert FirstAccount([entry], account, 0);
  }
}
