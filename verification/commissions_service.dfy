/** `CommissionsService`: each downloaded commissions record is routed to
    the advisor of its account and appended, per advisor, to state the
    service instance keeps between callbacks. */
module CommissionsService {
  import opened PyJson
  import opened Http
  import opened Lookup
  import opened Grouping
  import CommissionsController
  import EmailService

  /** One DataFrame row as `row.to_dict()` gives it: column to cell value
      (the cell types are whatever `pandas.read_csv` inferred). */
  type Record = map<string, Json>

  /** The two tables `__init__` loads. */
  datatype Data = Data(accounts: seq<Json>, advisors: seq<Json>)

  /** `__init__`: the configuration service is built first (its token
      fetch may raise; `configBuilt` says whether it did not), then the
      e-mail service (no key, no service), then the two tables, where
      `load_json` re-raises, so a missing or undecodable file makes
      construction fail too. */
  function Load(configBuilt: bool, env: map<string, string>, accountsFile: DataFile, advisorsFile: DataFile)
    : (r: Eval<Data>)
    ensures r.Ok? <==>
      configBuilt && EmailService.New(env).Ok? && accountsFile.Decoded? && advisorsFile.Decoded?
    ensures r.Ok? ==> r.value == Data(accountsFile.entries, advisorsFile.entries)
  {
    if !configBuilt then Raised
    else if EmailService.New(env).Raised? then Raised
    else if accountsFile.Decoded? && advisorsFile.Decoded? then Ok(Data(accountsFile.entries, advisorsFile.entries))
    else Raised
  }

  /** What one instance accumulates: `unprocessed_accounts` and
      `processed_data`, an insertion-ordered dict of record lists keyed by
      `"<advisorName>_<advisorCgeCode>"`. */
  datatype Commissions = Commissions(unprocessed: set<string>, processed: seq<Group<string, Record>>)

  const Fresh: Commissions := Commissions({}, [])

  /** The advisor fields `get_advisor_info` returns. */
  datatype AdvisorInfo = AdvisorInfo(name: Json, code: Json, email: Json)

  /** `str(data["account"]) == account_number`. */
  function AccountTest(account: string): Json -> Eval<bool> {
    e => match Index(e, "account")
         case Raised => Raised
         case Ok(v) => Ok(PyStr(v) == account)
  }

  /** `data["advisorCgeCode"] == account_info["sgCGE"]`, both lookups made
      for every advisor entry the scan reaches, left operand first. */
  function CodeTest(info: Json): Json -> Eval<bool> {
    e => match Index(e, "advisorCgeCode")
         case Raised => Raised
         case Ok(v) =>
           (match Index(info, "sgCGE")
            case Raised => Raised
            case Ok(w) => Ok(PyEq(v, w)))
  }

  /** An account entry with an `account` field whose text is `account`. */
  predicate AccountIs(e: Json, account: string) {
    e.Obj? && "account" in e.fields && PyStr(e.fields["account"]) == account
  }

  /** An account entry the scan passes over: it has an `account` field,
      with other text. */
  predicate OtherAccount(e: Json, account: string) {
    e.Obj? && "account" in e.fields && PyStr(e.fields["account"]) != account
  }

  /** Entry `i` is the first whose account text is `account`. */
  predicate FirstAccount(accounts: seq<Json>, account: string, i: nat) {
    i < |accounts| && AccountIs(accounts[i], account)
    && forall m :: 0 <= m < i ==> OtherAccount(accounts[m], account)
  }

  predicate CodeIs(e: Json, sgcge: Json) {
    e.Obj? && "advisorCgeCode" in e.fields && PyEq(e.fields["advisorCgeCode"], sgcge)
  }

  predicate OtherCode(e: Json, sgcge: Json) {
    e.Obj? && "advisorCgeCode" in e.fields && !PyEq(e.fields["advisorCgeCode"], sgcge)
  }

  /** Entry `j` is the first advisor whose code equals `sgcge`. */
  predicate FirstAdvisor(advisors: seq<Json>, sgcge: Json, j: nat) {
    j < |advisors| && CodeIs(advisors[j], sgcge)
    && forall m :: 0 <= m < j ==> OtherCode(advisors[m], sgcge)
  }

  /** An advisor entry carrying the three fields the result copies. */
  predicate Complete(a: Json) {
    a.Obj? && "advisorName" in a.fields && "advisorCgeCode" in a.fields && "email" in a.fields
  }

  function InfoOf(a: Json): AdvisorInfo
    requires Complete(a)
  {
    AdvisorInfo(a.fields["advisorName"], a.fields["advisorCgeCode"], a.fields["email"])
  }

  lemma AccountTestMeaning(account: string, e: Json)
    ensures AccountTest(account)(e) == Ok(true) <==> AccountIs(e, account)
    ensures AccountTest(account)(e) == Ok(false) <==> OtherAccount(e, account)
  {
  }

  lemma CodeTestMeaning(info: Json, e: Json)
    requires info.Obj? && "sgCGE" in info.fields
    ensures CodeTest(info)(e) == Ok(true) <==> CodeIs(e, info.fields["sgCGE"])
    ensures CodeTest(info)(e) == Ok(false) <==> OtherCode(e, info.fields["sgCGE"])
  {
  }

  /** The account scan: the first entry whose `account` text is
      `account`. */
  function AccountScan(accounts: seq<Json>, account: string): (r: Eval<Option<nat>>)
    ensures forall i: nat :: FirstAccount(accounts, account, i) ==> r == Ok(Some(i))
    ensures r.Ok? && r.value.Some? ==> FirstAccount(accounts, account, r.value.value)
    ensures (forall m :: 0 <= m < |accounts| ==> OtherAccount(accounts[m], account)) ==> r == Ok(None)
  {
    var test := AccountTest(account);
    forall m | 0 <= m < |accounts|
      ensures test(accounts[m]) == Ok(true) <==> AccountIs(accounts[m], account)
      ensures test(accounts[m]) == Ok(false) <==> OtherAccount(accounts[m], account) {
      AccountTestMeaning(account, accounts[m]);
    }
    forall i: nat | FirstAccount(accounts, account, i) ensures FirstMatch(accounts, test) == Ok(Some(i)) {
      FirstMatchIsFirst(accounts, test, i);
    }
    FirstMatch(accounts, test)
  }

  /** The advisor scan for the code of account entry `info`.  It can only
      succeed when `info` has an `sgCGE`. */
  function AdvisorScan(advisors: seq<Json>, info: Json): (r: Eval<Option<nat>>)
    ensures info.Obj? && "sgCGE" in info.fields ==>
      forall j: nat :: FirstAdvisor(advisors, info.fields["sgCGE"], j) ==> r == Ok(Some(j))
    ensures r.Ok? && r.value.Some? ==>
      info.Obj? && "sgCGE" in info.fields && FirstAdvisor(advisors, info.fields["sgCGE"], r.value.value)
  {
    var test := CodeTest(info);
    var r := FirstMatch(advisors, test);
    if info.Obj? && "sgCGE" in info.fields then
      forall m | 0 <= m < |advisors|
        ensures test(advisors[m]) == Ok(true) <==> CodeIs(advisors[m], info.fields["sgCGE"])
        ensures test(advisors[m]) == Ok(false) <==> OtherCode(advisors[m], info.fields["sgCGE"]) {
        CodeTestMeaning(info, advisors[m]);
      }
      forall j: nat | FirstAdvisor(advisors, info.fields["sgCGE"], j) ensures r == Ok(Some(j)) {
        FirstMatchIsFirst(advisors, test, j);
      }
      r
    else
      r
  }

  /** The `try` body of `get_advisor_info` for the account text
      `account`: the advisor of the first matching account entry, `None`
      when no entry matches or no advisor has its code, and an exception
      when a lookup along the way fails (an entry without `account`, a
      matching entry without `sgCGE`, an advisor without one of its
      fields). */
  function Resolve(d: Data, account: string): (r: Eval<Option<AdvisorInfo>>)
    ensures forall i: nat, j: nat ::
      FirstAccount(d.accounts, account, i) && "sgCGE" in d.accounts[i].fields
      && FirstAdvisor(d.advisors, d.accounts[i].fields["sgCGE"], j) && Complete(d.advisors[j]) ==>
        r == Ok(Some(InfoOf(d.advisors[j])))
    ensures r.Ok? && r.value.Some? ==>
      exists i: nat, j: nat ::
        FirstAccount(d.accounts, account, i) && "sgCGE" in d.accounts[i].fields
        && FirstAdvisor(d.advisors, d.accounts[i].fields["sgCGE"], j) && Complete(d.advisors[j])
        && r.value.value == InfoOf(d.advisors[j])
    ensures (forall m :: 0 <= m < |d.accounts| ==> OtherAccount(d.accounts[m], account)) ==> r == Ok(None)
  {
    match AccountScan(d.accounts, account)
    case Raised => Raised
    case Ok(None) => Ok(None)
    case Ok(Some(i)) =>
      var info := d.accounts[i];
      match AdvisorScan(d.advisors, info)
      case Raised => Raised
      // the warning logged on a miss reads `account_info['sgCGE']` again
      case Ok(None) => if Index(info, "sgCGE").Raised? then Raised else Ok(None)
      case Ok(Some(j)) => if Complete(d.advisors[j]) then Ok(Some(InfoOf(d.advisors[j]))) else Raised
  }

  /** `get_advisor_info`: the account number as text decides; a found
      advisor leaves the state alone, and every other outcome (no entry,
      no advisor, a failed lookup) adds the account text to
      `unprocessed_accounts` and answers `None`. */
  function GetAdvisorInfo(d: Data, s: Commissions, account: Json): (r: (Commissions, Option<AdvisorInfo>))
    ensures r.1.Some? <==> Resolve(d, PyStr(account)).Ok? && Resolve(d, PyStr(account)).value.Some?
    ensures r.1.Some? ==> r.1 == Resolve(d, PyStr(account)).value && r.0 == s
    ensures r.1.None? ==> r.0 == s.(unprocessed := s.unprocessed + {PyStr(account)})
  {
    var key := PyStr(account);
    match Resolve(d, key)
    case Ok(Some(info)) => (s, Some(info))
    case _ => (s.(unprocessed := s.unprocessed + {key}), None)
  }

  /** An account number and its decimal text are looked up alike. */
  lemma NumberAndTextAgree(d: Data, s: Commissions, n: int)
    ensures GetAdvisorInfo(d, s, Num(n)) == GetAdvisorInfo(d, s, Str(IntToString(n)))
  {
    assert PyStr(Num(n)) == PyStr(Str(IntToString(n)));
  }

  /** `f"{advisorName}_{advisorCgeCode}"`. */
  function AdvisorKey(info: AdvisorInfo): string {
    PyStr(info.name) + "_" + PyStr(info.code)
  }

  /** The advisor key a record is filed under, if its account resolves. */
  function Route(d: Data, row: Record): Option<string>
    requires "nr_conta" in row
  {
    match Resolve(d, PyStr(row["nr_conta"]))
    case Ok(Some(info)) => Some(AdvisorKey(info))
    case _ => None
  }

  /** The record has an account number that resolves to key `k`. */
  function RoutesTo(d: Data, k: string): Record -> bool {
    row => "nr_conta" in row && Route(d, row) == Some(k)
  }

  /** The record has an account number that resolves to some advisor. */
  function Routed(d: Data): Record -> bool {
    row => "nr_conta" in row && Route(d, row).Some?
  }

  /** The state after a `process_commissions` call, and whether it
      raised.  Rows handled before an exception stay handled: the instance
      was mutated in place. */
  datatype Step = Step(state: Commissions, raised: bool)

  /** One loop iteration: `row["nr_conta"]` raises `KeyError` when the
      column is missing (and is re-raised); a resolved row is appended
      under its advisor key. */
  function ProcessRow(d: Data, s: Commissions, row: Record): (t: Step)
    ensures t.raised <==> "nr_conta" !in row
    ensures t.raised ==> t.state == s
    ensures !t.raised && Route(d, row).Some? ==>
      t.state == s.(processed := Insert(s.processed, Route(d, row).value, row))
    ensures !t.raised && Route(d, row).None? ==>
      t.state == s.(unprocessed := s.unprocessed + {PyStr(row["nr_conta"])})
  {
    if "nr_conta" !in row then Step(s, true)
    else
      match GetAdvisorInfo(d, s, row["nr_conta"])
      case (s', None) => Step(s', false)
      case (s', Some(info)) => Step(s'.(processed := Insert(s'.processed, AdvisorKey(info), row)), false)
  }

  /** `process_commissions`: the rows in DataFrame order, stopping at the
      first one without `nr_conta`. */
  function ProcessRows(d: Data, s: Commissions, rows: seq<Record>): (t: Step)
    decreases |rows|
  {
    if |rows| == 0 then Step(s, false)
    else Advance(d, ProcessRows(d, s, rows[..|rows| - 1]), rows[|rows| - 1])
  }

  /** One more row after `prev`, unless an earlier row already raised. */
  function Advance(d: Data, prev: Step, row: Record): Step {
    if prev.raised then prev else ProcessRow(d, prev.state, row)
  }

  /** The records filed under `k`, or none when `k` is not a key. */
  function Members(groups: seq<Group<string, Record>>, k: string): seq<Record>
    decreases |groups|
  {
    if |groups| == 0 then []
    else if groups[0].key == k then groups[0].members
    else Members(groups[1..], k)
  }

  /** Appending under one key extends that key's list and no other. */
  lemma {:induction false} MembersInsert(groups: seq<Group<string, Record>>, k: string, x: Record, k': string)
    ensures Members(Insert(groups, k, x), k') == Members(groups, k') + (if k == k' then [x] else [])
    decreases |groups|
  {
    if |groups| > 0 && groups[0].key != k {
      var r := Insert(groups, k, x);
      assert r[0] == groups[0] && r[1..] == Insert(groups[1..], k, x);
      MembersInsert(groups[1..], k, x, k');
    }
  }

  /** Every row holds an account number. */
  predicate AllNumbered(rows: seq<Record>) {
    forall i :: 0 <= i < |rows| ==> "nr_conta" in rows[i]
  }

  /** The row holds an account number that does not resolve. */
  predicate Unrouted(d: Data, row: Record) {
    "nr_conta" in row && Route(d, row).None?
  }

  /** The account number as text; empty when there is none. */
  function AccountText(row: Record): string {
    if "nr_conta" in row then PyStr(row["nr_conta"]) else ""
  }

  /** The account texts of the rows that do not resolve. */
  function Unresolved(d: Data, rows: seq<Record>): set<string>
    requires AllNumbered(rows)
  {
    set i | 0 <= i < |rows| && Unrouted(d, rows[i]) :: AccountText(rows[i])
  }

  /** A list is numbered when the rows before the last are and the last
      row is. */
  lemma AllNumberedLast(rows: seq<Record>)
    requires |rows| > 0
    ensures AllNumbered(rows) <==> AllNumbered(rows[..|rows| - 1]) && "nr_conta" in rows[|rows| - 1]
  {
    var init := rows[..|rows| - 1];
    assert forall i :: 0 <= i < |init| ==> init[i] == rows[i];
  }

  /** A call raises exactly when some row lacks `nr_conta`, and nothing
      is ever removed from the unprocessed set. */
  lemma {:induction false} ProcessRowsRaises(d: Data, s: Commissions, rows: seq<Record>)
    ensures ProcessRows(d, s, rows).raised <==> !AllNumbered(rows)
    ensures s.unprocessed <= ProcessRows(d, s, rows).state.unprocessed
    decreases |rows|
  {
    if |rows| > 0 {
      ProcessRowsRaises(d, s, rows[..|rows| - 1]);
      AllNumberedLast(rows);
    }
  }

  /** Without an exception, each advisor's list grows by the rows routed
      to it, in row order, and no other list changes. */
  lemma {:induction false} ProcessRowsFiles(d: Data, s: Commissions, rows: seq<Record>, k: string)
    requires AllNumbered(rows)
    ensures Members(ProcessRows(d, s, rows).state.processed, k) == Members(s.processed, k) + Filter(rows, RoutesTo(d, k))
    decreases |rows|
  {
    if |rows| > 0 {
      AllNumberedInit(rows);
      ProcessRowsFiles(d, s, rows[..|rows| - 1], k);
      FilesStep(d, s, rows, k);
    }
  }

  /** The inductive step of `ProcessRowsFiles`: the last row. */
  lemma FilesStep(d: Data, s: Commissions, rows: seq<Record>, k: string)
    requires |rows| > 0 && AllNumbered(rows)
    requires var init := rows[..|rows| - 1];
      AllNumbered(init)
      && Members(ProcessRows(d, s, init).state.processed, k) == Members(s.processed, k) + Filter(init, RoutesTo(d, k))
    ensures Members(ProcessRows(d, s, rows).state.processed, k) == Members(s.processed, k) + Filter(rows, RoutesTo(d, k))
  {
    var n := |rows| - 1;
    var init, row := rows[..n], rows[n];
    var p := RoutesTo(d, k);
    var prev := ProcessRows(d, s, init);
    ProcessRowsRaises(d, s, init);
    RowFiles(d, prev.state, row, k);
    FilterLast(rows, p);
    Chain(Members(s.processed, k), Filter(init, p), if p(row) then [row] else []);
  }

  lemma Chain(m: seq<Record>, f: seq<Record>, added: seq<Record>)
    ensures m + (f + added) == (m + f) + added
  {
  }

  /** One routed row extends its advisor's list and no other. */
  lemma RowFiles(d: Data, s: Commissions, row: Record, k: string)
    requires "nr_conta" in row
    ensures Members(ProcessRow(d, s, row).state.processed, k)
            == Members(s.processed, k) + (if RoutesTo(d, k)(row) then [row] else [])
  {
    var t := ProcessRow(d, s, row);
    if Route(d, row).Some? {
      var key := Route(d, row).value;
      assert t.state.processed == Insert(s.processed, key, row);
      assert RoutesTo(d, k)(row) <==> key == k;
      MembersInsert(s.processed, key, row, k);
    } else {
      assert t.state.processed == s.processed;
      assert !RoutesTo(d, k)(row);
    }
  }

  /** The rows before the last are numbered when all are. */
  lemma AllNumberedInit(rows: seq<Record>)
    requires |rows| > 0 && AllNumbered(rows)
    ensures AllNumbered(rows[..|rows| - 1]) && "nr_conta" in rows[|rows| - 1]
  {
    assert forall i :: 0 <= i < |rows| - 1 ==> rows[..|rows| - 1][i] == rows[i];
  }

  /** Without an exception, the record total grows by the number of
      routed rows. */
  lemma {:induction false} ProcessRowsCount(d: Data, s: Commissions, rows: seq<Record>)
    requires AllNumbered(rows)
    ensures Sizes(ProcessRows(d, s, rows).state.processed) == Sizes(s.processed) + |Filter(rows, Routed(d))|
    decreases |rows|
  {
    if |rows| > 0 {
      AllNumberedInit(rows);
      ProcessRowsCount(d, s, rows[..|rows| - 1]);
      CountStep(d, s, rows);
    }
  }

  /** The inductive step of `ProcessRowsCount`: the last row. */
  lemma CountStep(d: Data, s: Commissions, rows: seq<Record>)
    requires |rows| > 0 && AllNumbered(rows)
    requires var init := rows[..|rows| - 1];
      AllNumbered(init)
      && Sizes(ProcessRows(d, s, init).state.processed) == Sizes(s.processed) + |Filter(init, Routed(d))|
    ensures Sizes(ProcessRows(d, s, rows).state.processed) == Sizes(s.processed) + |Filter(rows, Routed(d))|
  {
    var n := |rows| - 1;
    var init, row := rows[..n], rows[n];
    var prev := ProcessRows(d, s, init);
    ProcessRowsRaises(d, s, init);
    FilterLast(rows, Routed(d));
    if Route(d, row).Some? {
      InsertSize(prev.state.processed, Route(d, row).value, row);
    }
  }

  /** Without an exception, the unprocessed set grows by exactly the
      account texts of the rows that did not route. */
  lemma {:induction false} ProcessRowsUnprocessed(d: Data, s: Commissions, rows: seq<Record>)
    requires AllNumbered(rows)
    ensures ProcessRows(d, s, rows).state.unprocessed == s.unprocessed + Unresolved(d, rows)
    decreases |rows|
  {
    if |rows| > 0 {
      AllNumberedInit(rows);
      ProcessRowsUnprocessed(d, s, rows[..|rows| - 1]);
      UnprocessedStep(d, s, rows);
    }
  }

  /** The inductive step of `ProcessRowsUnprocessed`: the last row. */
  lemma UnprocessedStep(d: Data, s: Commissions, rows: seq<Record>)
    requires |rows| > 0 && AllNumbered(rows)
    requires var init := rows[..|rows| - 1];
      AllNumbered(init)
      && ProcessRows(d, s, init).state.unprocessed == s.unprocessed + Unresolved(d, init)
    ensures ProcessRows(d, s, rows).state.unprocessed == s.unprocessed + Unresolved(d, rows)
  {
    var n := |rows| - 1;
    ProcessRowsRaises(d, s, rows[..n]);
    UnresolvedLast(d, rows);
  }

  lemma UnresolvedLast(d: Data, rows: seq<Record>)
    requires |rows| > 0 && AllNumbered(rows)
    ensures AllNumbered(rows[..|rows| - 1])
    ensures var row := rows[|rows| - 1];
      Unresolved(d, rows)
      == Unresolved(d, rows[..|rows| - 1]) + (if Route(d, row).None? then {PyStr(row["nr_conta"])} else {})
  {
    var n := |rows| - 1;
    AllNumberedInit(rows);
    UnresolvedImages(d, rows);
    ImageLast(rows, r => Unrouted(d, r), AccountText);
    assert AccountText(rows[n]) == PyStr(rows[n]["nr_conta"]);
  }

  /** `Unresolved` of a list and of its rows before the last, as images
      over the list's own indices. */
  lemma UnresolvedImages(d: Data, rows: seq<Record>)
    requires |rows| > 0 && AllNumbered(rows)
    ensures AllNumbered(rows[..|rows| - 1])
    ensures var p := r => Unrouted(d, r);
      Unresolved(d, rows) == (set i | 0 <= i < |rows| && p(rows[i]) :: AccountText(rows[i]))
      && Unresolved(d, rows[..|rows| - 1]) == (set i | 0 <= i < |rows| - 1 && p(rows[i]) :: AccountText(rows[i]))
  {
    AllNumberedInit(rows);
    UnresolvedPrefix(d, rows, |rows| - 1);
  }

  /** `Unresolved` of a prefix, over the whole list's indices. */
  lemma UnresolvedPrefix(d: Data, rows: seq<Record>, n: nat)
    requires n <= |rows| && AllNumbered(rows[..n])
    ensures Unresolved(d, rows[..n]) == (set i | 0 <= i < n && Unrouted(d, rows[i]) :: AccountText(rows[i]))
  {
    var init := rows[..n];
    assert forall i :: 0 <= i < n ==> init[i] == rows[i];
  }

  /** Callbacks accumulate: processing `a` and then, on the same
      instance, `b` is processing `a + b` once. */
  lemma {:induction false} ProcessRowsAccumulate(d: Data, s: Commissions, a: seq<Record>, b: seq<Record>)
    requires !ProcessRows(d, s, a).raised
    ensures ProcessRows(d, ProcessRows(d, s, a).state, b) == ProcessRows(d, s, a + b)
    decreases |b|
  {
    if |b| == 0 {
      assert a + b == a;
    } else {
      ProcessRowsAccumulate(d, s, a, b[..|b| - 1]);
      AccumulateStep(d, s, a, b);
    }
  }

  /** The inductive step of `ProcessRowsAccumulate`: the last row of `b`. */
  lemma AccumulateStep(d: Data, s: Commissions, a: seq<Record>, b: seq<Record>)
    requires |b| > 0 && !ProcessRows(d, s, a).raised
    requires ProcessRows(d, ProcessRows(d, s, a).state, b[..|b| - 1]) == ProcessRows(d, s, a + b[..|b| - 1])
    ensures ProcessRows(d, ProcessRows(d, s, a).state, b) == ProcessRows(d, s, a + b)
  {
    ConcatInit(a, b);
  }

  /** From a fresh instance, an advisor's list is exactly the rows routed
      to it, and no rows of other advisors. */
  lemma FreshInstanceFiles(d: Data, rows: seq<Record>, k: string)
    requires AllNumbered(rows)
    ensures Members(ProcessRows(d, Fresh, rows).state.processed, k) == Filter(rows, RoutesTo(d, k))
    ensures ProcessRows(d, Fresh, rows).state.unprocessed == Unresolved(d, rows)
  {
    ProcessRowsFiles(d, Fresh, rows, k);
    ProcessRowsUnprocessed(d, Fresh, rows);
  }

  /** A commissions download: the status and the rows `pandas.read_csv`
      gave (decoding is outside the model and may raise), or a
      `RequestException`. */
  datatype FrameDownload = Loaded(status: int, frame: Eval<seq<Record>>) | FrameDownloadError

  function FrameJson(rows: seq<Record>): Json {
    Arr(seq(|rows|, i requires 0 <= i < |rows| => Obj(rows[i])))
  }

  /** `process_csv_from_url`: `None` on a `RequestException`; a non-200
      download raises a plain `Exception` that the `except` does not
      catch, and so do a decoding failure and a failed
      `process_commissions`; otherwise the DataFrame, even an empty
      one.  The new state is returned in every case. */
  function ProcessCsv(d: Data, s: Commissions, dl: FrameDownload): (r: (Commissions, Eval<Json>))
    ensures r.1 == Ok(Null) <==> dl.FrameDownloadError?
    ensures r.1.Raised? <==>
      dl.Loaded? && (dl.status != OK || dl.frame.Raised? || !AllNumbered(dl.frame.value))
    ensures dl.Loaded? && dl.status == OK && dl.frame.Ok? ==> r.0 == ProcessRows(d, s, dl.frame.value).state
    ensures !(dl.Loaded? && dl.status == OK && dl.frame.Ok?) ==> r.0 == s
  {
    match dl
    case FrameDownloadError => (s, Ok(Null))
    case Loaded(status, frame) =>
      if status != OK then (s, Raised)
      else
        match frame
        case Raised => (s, Raised)
        case Ok(rows) =>
          ProcessRowsRaises(d, s, rows);
          var t := ProcessRows(d, s, rows);
          (t.state, if t.raised then Raised else Ok(FrameJson(rows)))
  }

  /** The callback leg of `CommissionsController` fed by this service:
      "generated" for a 200 download whose rows all carry an account
      number (an empty file included), the no-data 204 only for a request
      error, the generic 500 otherwise. */
  lemma CommissionsCallback(d: Data, s: Commissions, req: Request, report: Eval<Json>,
                            fetch: Json -> FrameDownload, u: Json)
    requires MemberUrl(SilentJson(req), "response") == Some(u)
    ensures var h := CommissionsController.Handle(req, report, url => ProcessCsv(d, s, fetch(url)).1);
      var dl := fetch(u);
      (h.reply == CommissionsController.Generated <==>
        dl.Loaded? && dl.status == OK && dl.frame.Ok? && AllNumbered(dl.frame.value))
      && (h.reply.status == NO_CONTENT <==> dl.FrameDownloadError?)
      && (h.reply == InternalError <==>
        dl.Loaded? && (dl.status != OK || dl.frame.Raised? || !AllNumbered(dl.frame.value)))
  {
  }
}
