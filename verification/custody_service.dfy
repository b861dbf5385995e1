/** `core/services/custody/custody_service.CustodyService`: the daily
    check that reads the custody report, keeps the structured products
    expiring today, and mails them to the variable-income desk and to
    each client's advisor. */
module CustodyService {
  import opened PyJson
  import opened Http
  import opened Rows
  import opened Text
  import opened Grouping
  import opened Calendar
  import opened Upstream
  import SearchAdvisorEmail
  import CustodyController

  /** `process_csv_from_url`: the rows of every member in archive order; a
      non-200 download, a request error or any failure while reading the
      archive gives `[]`. */
  function ProcessCsv(d: ZipDownload): (rows: seq<Row>)
    ensures !(d.Zipped? && d.status == OK && d.members.Ok?) ==> rows == []
    ensures d.Zipped? && d.status == OK && d.members.Ok? ==> rows == Flatten(d.members.value)
  {
    match d
    case ZipDownloadError => []
    case Zipped(status, members) =>
      if status != OK then []
      else
        match members
        case Raised => []
        case Ok(ms) => Flatten(ms)
  }

  /** Every row carries `column`. */
  predicate HasColumn(rows: seq<Row>, column: string) {
    forall i :: 0 <= i < |rows| ==> column in rows[i]
  }

  function ExpiresOn(stamp: string): Row -> bool {
    r => "fixingDate" in r && r["fixingDate"] == stamp
  }

  /** `_filter_products_to_expire`: the rows whose `fixingDate` is today
      as `%d-%m-%Y`, in input order; a row without the column raises
      `KeyError`. */
  function FilterProductsToExpire(data: seq<Row>, today: Date): (r: Eval<seq<Row>>)
    requires Valid(today)
    ensures r.Ok? <==> HasColumn(data, "fixingDate")
    ensures r.Ok? ==> IsSubsequence(r.value, data)
    ensures r.Ok? ==> forall i :: 0 <= i < |r.value| ==> "fixingDate" in r.value[i] && r.value[i]["fixingDate"] == DayStamp(today)
    ensures r.Ok? ==> forall i :: 0 <= i < |data| && data[i]["fixingDate"] == DayStamp(today) ==> data[i] in r.value
  {
    if HasColumn(data, "fixingDate") then
      FilterKeeps(data, ExpiresOn(DayStamp(today)));
      Ok(Filter(data, ExpiresOn(DayStamp(today))))
    else Raised
  }

  /** A kept row's `fixingDate` reads back as today, and a row stamped
      with any other valid date is dropped. */
  lemma KeptRowsAreToday(data: seq<Row>, today: Date, other: Date)
    requires Valid(today) && Valid(other) && other != today
    requires FilterProductsToExpire(data, today).Ok?
    ensures var kept := FilterProductsToExpire(data, today).value;
      (forall i :: 0 <= i < |kept| ==> ParseDayStamp(kept[i]["fixingDate"]) == Some(today))
      && forall row :: row in kept ==> row["fixingDate"] != DayStamp(other)
  {
    DayStampRoundTrip(today);
    if DayStamp(today) == DayStamp(other) {
      DayStampInjective(today, other);
    }
  }

  /** The key two PUT/CALL legs of one operation share. */
  datatype OperationKey = OperationKey(account: string, asset: string, product: string, quantity: string)

  function Column(r: Row, column: string): string {
    if column in r then r[column] else ""
  }

  predicate HasKeyColumns(r: Row) {
    "accountNumber" in r && "referenceAsset" in r && "nomeDoProduto" in r && "qtdAtual" in r
  }

  function KeyOf(r: Row): OperationKey {
    OperationKey(Column(r, "accountNumber"), Column(r, "referenceAsset"), Column(r, "nomeDoProduto"), Column(r, "qtdAtual"))
  }

  /** `_consolidate_operations`: the first row of each operation key, in
      input order; every key of the input survives once.  A row missing a
      key column raises `KeyError`. */
  function ConsolidateOperations(products: seq<Row>): (r: Eval<seq<Row>>)
    ensures r.Ok? <==> forall i :: 0 <= i < |products| ==> HasKeyColumns(products[i])
    ensures r.Ok? ==> DistinctKeys(r.value, KeyOf) && KeySet(r.value, KeyOf) == KeySet(products, KeyOf)
    ensures r.Ok? ==> IsSubsequence(r.value, products)
    ensures r.Ok? ==> forall j :: 0 <= j < |r.value| ==> FirstOfKey(products, KeyOf, r.value[j])
  {
    if forall i :: 0 <= i < |products| ==> HasKeyColumns(products[i]) then
      DedupFirstWins(products, KeyOf);
      Ok(Dedup(products, KeyOf))
    else Raised
  }

  /** Consolidating consolidated rows changes nothing. */
  lemma ConsolidateIdempotent(products: seq<Row>)
    requires ConsolidateOperations(products).Ok?
    ensures ConsolidateOperations(ConsolidateOperations(products).value) == ConsolidateOperations(products)
  {
    var once := ConsolidateOperations(products).value;
    SubsequenceMembers(once, products);
    assert forall i :: 0 <= i < |once| ==> HasKeyColumns(once[i]) by {
      forall i | 0 <= i < |once| ensures HasKeyColumns(once[i]) {
        assert once[i] in products;
      }
    }
    DedupIdempotent(products, KeyOf);
  }

  function AccountOf(r: Row): string {
    Column(r, "accountNumber")
  }

  /** `_group_by_client`: one group per account number in order of first
      appearance, holding that account's rows in input order; the sizes
      add up to the input.  A row without `accountNumber` raises. */
  function GroupByClient(data: seq<Row>): (r: Eval<seq<Group<string, Row>>>)
    ensures r.Ok? <==> HasColumn(data, "accountNumber")
    ensures r.Ok? ==> GroupsOf(r.value, data, AccountOf) && Sizes(r.value) == |data|
  {
    if HasColumn(data, "accountNumber") then
      GroupByGroups(data, AccountOf);
      GroupBySizes(data, AccountOf);
      Ok(GroupBy(data, AccountOf))
    else Raised
  }

  /** Every product carries the two cells its line shows. */
  predicate Listable(products: seq<Row>) {
    forall i :: 0 <= i < |products| ==> "referenceAsset" in products[i] && "nomeDoProduto" in products[i]
  }

  /** A product's line, `* Ativo: <referenceAsset> | Produto: <nomeDoProduto>`. */
  function ProductLine(p: Row): string
    requires "referenceAsset" in p && "nomeDoProduto" in p
  {
    "* Ativo: " + p["referenceAsset"] + " | Produto: " + p["nomeDoProduto"] + "\n"
  }

  /** The line of each product, in order. */
  function LinesOf(products: seq<Row>): (ls: seq<string>)
    requires Listable(products)
    ensures |ls| == |products| && forall i :: 0 <= i < |products| ==> ls[i] == ProductLine(products[i])
  {
    seq(|products|, i requires 0 <= i < |products| && Listable(products) => ProductLine(products[i]))
  }

  /** The inner loop over one client's products: one line per product in
      order; a product without either cell raises. */
  function ProductLines(products: seq<Row>): (r: Eval<string>)
    ensures r.Ok? <==> Listable(products)
    ensures r.Ok? ==> r.value == Concat(LinesOf(products))
    decreases |products|
  {
    if |products| == 0 then Ok("")
    else
      assert forall i :: 1 <= i < |products| ==> products[1..][i - 1] == products[i];
      var asset :- Cell(products[0], "referenceAsset");
      var product :- Cell(products[0], "nomeDoProduto");
      var rest :- ProductLines(products[1..]);
      assert LinesOf(products)[1..] == LinesOf(products[1..]);
      Ok("* Ativo: " + asset + " | Produto: " + product + "\n" + rest)
  }

  /** A client's heading line. */
  function ClientLine(name: Json, number: Json): string {
    "\nCliente: " + PyStr(name) + " (Conta: " + PyStr(number) + ")\n"
  }

  /** One client's block, read from `client['accountName']` and
      `client['accountNumber']`: the heading, then the products' lines. */
  function Section(client: Json, products: seq<Row>): (r: Eval<string>)
    ensures r.Ok? <==> Index(client, "accountName").Ok? && Index(client, "accountNumber").Ok? && Listable(products)
    ensures r.Ok? ==>
      r.value == ClientLine(Index(client, "accountName").value, Index(client, "accountNumber").value)
                 + Concat(LinesOf(products))
  {
    var name :- Index(client, "accountName");
    var number :- Index(client, "accountNumber");
    var lines :- ProductLines(products);
    Ok(ClientLine(name, number) + lines)
  }

  /** Every group's block can be written. */
  predicate Writable(groups: seq<Group<string, Row>>, client: Group<string, Row> -> Json) {
    forall i :: 0 <= i < |groups| ==> Section(client(groups[i]), groups[i].members).Ok?
  }

  /** The block of each group, in order. */
  function BlocksOf(groups: seq<Group<string, Row>>, client: Group<string, Row> -> Json): (bs: seq<string>)
    requires Writable(groups, client)
    ensures |bs| == |groups|
    ensures forall i :: 0 <= i < |groups| ==> bs[i] == Section(client(groups[i]), groups[i].members).value
  {
    seq(|groups|, i requires 0 <= i < |groups| && Writable(groups, client) =>
      Section(client(groups[i]), groups[i].members).value)
  }

  /** The blocks of all groups, where `client` picks the value a block
      reads the client's name and number from: the first block that
      cannot be written raises, otherwise they follow one another. */
  function Sections(groups: seq<Group<string, Row>>, client: Group<string, Row> -> Json): (r: Eval<string>)
    ensures r.Ok? <==> Writable(groups, client)
    ensures r.Ok? ==> r.value == Concat(BlocksOf(groups, client))
    decreases |groups|
  {
    if |groups| == 0 then Ok("")
    else
      assert forall i :: 1 <= i < |groups| ==> groups[1..][i - 1] == groups[i];
      var first :- Section(client(groups[0]), groups[0].members);
      var rest :- Sections(groups[1..], client);
      assert BlocksOf(groups, client)[1..] == BlocksOf(groups[1..], client);
      Ok(first + rest)
  }

  /** As written, the block reads the dict key: the account-number
      string. */
  function ClientAsWritten(g: Group<string, Row>): Json {
    Str(g.key)
  }

  /** The block reads the group's first row, which carries `accountName`
      and `accountNumber`. */
  function ClientRecord(g: Group<string, Row>): Json {
    if |g.members| > 0 then RowJson(g.members[0]) else EmptyObj
  }

  /** Indexing a string with a string raises, so as written any group
      makes the body raise. */
  lemma SectionsAsWrittenRaise(groups: seq<Group<string, Row>>)
    ensures Sections(groups, ClientAsWritten).Raised? <==> |groups| > 0
  {
  }

  datatype Mail = Mail(to: Json, subject: string, body: string)

  function Subject(today: Date): string
    requires Valid(today)
  {
    "Produtos Estruturados para Vencimento - " + Pad2(today.day) + "/" + Pad2(today.month) + "/" + YearText(today.year)
  }

  const DeskHeader: string :=
    "Prezada Mesa Variável, abaixo encontram-se todos os produtos estruturados com vencimento para a data de hoje:\n\n"
  const AdvisorHeader: string :=
    "Prezado(a) Assessor(a), abaixo encontram-se produtos estruturados de seus clientes com vencimento para data de hoje:\n\n"

  /** The mail of `send_email_to_variable_desk`, addressed to the
      `NOTIFY_EMAIL` setting: the desk header, then one block per client
      of the products, clients in order of first appearance. */
  function DeskMail(products: seq<Row>, today: Date, notify: Json, client: Group<string, Row> -> Json): (r: Eval<Mail>)
    requires Valid(today)
    ensures r.Ok? <==> GroupByClient(products).Ok? && Writable(GroupByClient(products).value, client)
    ensures r.Ok? ==>
      r.value == Mail(notify, Subject(today), DeskHeader + Concat(BlocksOf(GroupByClient(products).value, client)))
  {
    var groups :- GroupByClient(products);
    var body :- Sections(groups, client);
    Ok(Mail(notify, Subject(today), DeskHeader + body))
  }

  /** A mail lists `p`: the block of `p`'s client, one of the body's
      blocks, holds `p`'s line. */
  predicate Lists(groups: seq<Group<string, Row>>, client: Group<string, Row> -> Json, p: Row)
    requires Writable(groups, client)
  {
    exists j :: 0 <= j < |groups| && groups[j].key == AccountOf(p) && p in groups[j].members
      && Listable(groups[j].members) && ProductLine(p) in LinesOf(groups[j].members)
  }

  /** Every product handed to the body builder is listed under its own
      client. */
  lemma EveryProductListed(products: seq<Row>, client: Group<string, Row> -> Json)
    requires GroupByClient(products).Ok? && Writable(GroupByClient(products).value, client)
    ensures forall i :: 0 <= i < |products| ==> Lists(GroupByClient(products).value, client, products[i])
  {
    var groups := GroupByClient(products).value;
    forall i | 0 <= i < |products| ensures Lists(groups, client, products[i]) {
      GroupsOfCover(groups, products, AccountOf, i);
      var j :| 0 <= j < |groups| && groups[j].key == AccountOf(products[i]) && products[i] in groups[j].members;
      assert Section(client(groups[j]), groups[j].members).Ok?;
      var k :| 0 <= k < |groups[j].members| && groups[j].members[k] == products[i];
      assert LinesOf(groups[j].members)[k] == ProductLine(products[i]);
    }
  }

  /** A product routed to its advisor's email. */
  datatype Routed = Routed(email: Json, product: Row)

  function RoutedKey(r: Routed): Json {
    HashKey(r.email)
  }

  function Products(rs: seq<Routed>): (ps: seq<Row>)
    ensures |ps| == |rs| && forall i :: 0 <= i < |rs| ==> ps[i] == rs[i].product
  {
    seq(|rs|, i requires 0 <= i < |rs| => rs[i].product)
  }

  /** `_, _, advisor_email, _ = get_client_and_advisor_info(...)` as
      written: the 3-tuple of a miss fails to unpack into four names. */
  function AdvisorEmailAsWritten(dir: SearchAdvisorEmail.Directory, product: Row): (r: Eval<Json>)
    ensures r.Ok? ==> "accountNumber" in product
    ensures r.Ok? ==>
      exists info :: SearchAdvisorEmail.GetClientAndAdvisorInfo(dir, Str(product["accountNumber"])) == Ok(info)
        && info.Complete? && info.email == r.value
  {
    if "accountNumber" !in product then Raised
    else
      match SearchAdvisorEmail.GetClientAndAdvisorInfo(dir, Str(product["accountNumber"]))
      case Raised => Raised
      case Ok(info) => if info.Complete? then Ok(info.email) else Raised
  }

  /** The lookup with a miss read as "no advisor": the product is then
      skipped like one whose advisor has no email. */
  function AdvisorEmail(dir: SearchAdvisorEmail.Directory, product: Row): (r: Eval<Json>)
    ensures r.Ok? ==> "accountNumber" in product
    ensures r.Ok? && r.value != Null ==>
      exists info :: SearchAdvisorEmail.GetClientAndAdvisorInfo(dir, Str(product["accountNumber"])) == Ok(info)
        && info.Complete? && info.email == r.value
    ensures AdvisorEmailAsWritten(dir, product).Ok? ==> r == AdvisorEmailAsWritten(dir, product)
  {
    if "accountNumber" !in product then Raised
    else
      match SearchAdvisorEmail.GetClientAndAdvisorInfo(dir, Str(product["accountNumber"]))
      case Raised => Raised
      case Ok(info) => if info.Complete? then Ok(info.email) else Ok(Null)
  }

  /** Every lookup succeeds, and every truthy email can key a dict. */
  predicate Routable(products: seq<Row>, lookup: Row -> Eval<Json>) {
    forall i :: 0 <= i < |products| ==>
      lookup(products[i]).Ok? && (Truthy(lookup(products[i]).value) ==> Hashable(lookup(products[i]).value))
  }

  /** `routed` is the routing of `products`: truthy emails only, each the
      lookup's answer, products kept in order, none with a truthy email
      dropped. */
  predicate RoutingOf(routed: seq<Routed>, products: seq<Row>, lookup: Row -> Eval<Json>) {
    (forall i :: 0 <= i < |routed| ==> Truthy(routed[i].email) && lookup(routed[i].product) == Ok(routed[i].email))
    && IsSubsequence(Products(routed), products)
    && (forall i :: 0 <= i < |products| && lookup(products[i]).Ok? && Truthy(lookup(products[i]).value) ==>
          products[i] in Products(routed))
  }

  /** The products with a truthy advisor email, each tagged with it, in
      input order. */
  function RouteProducts(products: seq<Row>, lookup: Row -> Eval<Json>): (r: Eval<seq<Routed>>)
    ensures r.Ok? <==> Routable(products, lookup)
    ensures r.Ok? ==> forall i :: 0 <= i < |r.value| ==>
      Truthy(r.value[i].email) && lookup(r.value[i].product) == Ok(r.value[i].email)
    ensures r.Ok? ==> IsSubsequence(Products(r.value), products)
    ensures r.Ok? ==> forall i :: 0 <= i < |products| && Truthy(lookup(products[i]).value) ==>
      products[i] in Products(r.value)
    decreases |products|
  {
    if |products| == 0 then Ok([])
    else
      var rest := RouteProducts(products[1..], lookup);
      match lookup(products[0])
      case Raised => Raised
      case Ok(email) =>
        if Truthy(email) && !Hashable(email) then Raised
        else
          match rest
          case Raised =>
            assert !Routable(products[1..], lookup);
            Raised
          case Ok(tail) =>
            assert Routable(products, lookup) by {
              assert forall i :: 1 <= i < |products| ==> products[i] == products[1..][i - 1];
            }
            RoutingCons(products, lookup, email, tail);
            if Truthy(email) then Ok([Routed(email, products[0])] + tail) else Ok(tail)
  }

  lemma RoutingCons(products: seq<Row>, lookup: Row -> Eval<Json>, email: Json, tail: seq<Routed>)
    requires |products| > 0 && lookup(products[0]) == Ok(email)
    requires RoutingOf(tail, products[1..], lookup)
    ensures RoutingOf(if Truthy(email) then [Routed(email, products[0])] + tail else tail, products, lookup)
  {
    SubsequenceCons(Products(tail), products);
    if Truthy(email) {
      RoutingKeep(products, lookup, email, tail);
    } else {
      RoutingSkip(products, lookup, tail);
    }
  }

  lemma RoutingKeep(products: seq<Row>, lookup: Row -> Eval<Json>, email: Json, tail: seq<Routed>)
    requires |products| > 0 && lookup(products[0]) == Ok(email) && Truthy(email)
    requires RoutingOf(tail, products[1..], lookup)
    requires IsSubsequence([products[0]] + Products(tail), products)
    ensures RoutingOf([Routed(email, products[0])] + tail, products, lookup)
  {
    var r := [Routed(email, products[0])] + tail;
    ProductsCons(Routed(email, products[0]), tail);
    TailMembers(products);
    forall i | 0 <= i < |products| && lookup(products[i]).Ok? && Truthy(lookup(products[i]).value)
      ensures products[i] in Products(r)
    {
      if i > 0 {
        assert products[i] in products[1..];
        assert products[1..][i - 1] == products[i];
      }
    }
  }

  lemma RoutingSkip(products: seq<Row>, lookup: Row -> Eval<Json>, tail: seq<Routed>)
    requires |products| > 0 && lookup(products[0]).Ok? && !Truthy(lookup(products[0]).value)
    requires RoutingOf(tail, products[1..], lookup)
    requires IsSubsequence(Products(tail), products)
    ensures RoutingOf(tail, products, lookup)
  {
    forall i | 0 <= i < |products| && lookup(products[i]).Ok? && Truthy(lookup(products[i]).value)
      ensures products[i] in Products(tail)
    {
      assert products[1..][i - 1] == products[i];
    }
  }

  lemma ProductsCons(x: Routed, rs: seq<Routed>)
    ensures Products([x] + rs) == [x.product] + Products(rs)
  {
  }

  /** `_group_products_by_advisor`: the routed products grouped under
      their advisor's email, in input order. */
  function GroupProductsByAdvisor(products: seq<Row>, lookup: Row -> Eval<Json>): (r: Eval<seq<Group<Json, Routed>>>)
    ensures r.Ok? <==> Routable(products, lookup)
    ensures r.Ok? ==> GroupsOf(r.value, RouteProducts(products, lookup).value, RoutedKey)
    ensures r.Ok? ==> Sizes(r.value) == |RouteProducts(products, lookup).value|
    ensures r.Ok? ==> forall i, j :: 0 <= i < j < |r.value| ==> r.value[i].key != r.value[j].key
  {
    var routed :- RouteProducts(products, lookup);
    GroupByGroups(routed, RoutedKey);
    GroupBySizes(routed, RoutedKey);
    var groups := GroupBy(routed, RoutedKey);
    var firsts := Dedup(routed, RoutedKey);
    forall i, j | 0 <= i < j < |groups| ensures groups[i].key != groups[j].key {
      assert RoutedKey(firsts[i]) != RoutedKey(firsts[j]);
    }
    Ok(GroupBy(routed, RoutedKey))
  }

  /** As written, a product whose account has no complete advisor entry
      makes the grouping raise. */
  lemma AdvisorMissRaisesAsWritten(dir: SearchAdvisorEmail.Directory, products: seq<Row>, i: nat)
    requires i < |products| && "accountNumber" in products[i]
    requires SearchAdvisorEmail.GetClientAndAdvisorInfo(dir, Str(products[i]["accountNumber"])).Ok?
    requires SearchAdvisorEmail.GetClientAndAdvisorInfo(dir, Str(products[i]["accountNumber"])).value.Partial?
    ensures GroupProductsByAdvisor(products, p => AdvisorEmailAsWritten(dir, p)).Raised?
  {
    assert AdvisorEmailAsWritten(dir, products[i]).Raised?;
  }

  /** The mail to one advisor: the advisor header, then the advisor's
      products grouped by client, one block per client. */
  function AdvisorMail(g: Group<Json, Routed>, today: Date, client: Group<string, Row> -> Json): (r: Eval<Mail>)
    requires Valid(today)
    ensures r.Ok? <==> GroupByClient(Products(g.members)).Ok? && Writable(GroupByClient(Products(g.members)).value, client)
    ensures r.Ok? ==>
      r.value == Mail(g.key, Subject(today), AdvisorHeader + Concat(BlocksOf(GroupByClient(Products(g.members)).value, client)))
  {
    var groups :- GroupByClient(Products(g.members));
    var body :- Sections(groups, client);
    Ok(Mail(g.key, Subject(today), AdvisorHeader + body))
  }

  /** The mails a run asked the email service to send, in order, and
      whether the run finished without raising. */
  datatype Trace = Trace(sent: seq<Mail>, completed: bool)

  /** `send_email_to_advisors`: each advisor's mail is built and sent in
      turn; a body that raises, or a send that raises, ends the loop. */
  function SendAdvisorMails(groups: seq<Group<Json, Routed>>, today: Date, client: Group<string, Row> -> Json,
                            send: Mail -> bool): (t: Trace)
    requires Valid(today)
    ensures |t.sent| <= |groups|
    ensures MailsFor(groups, today, client, t.sent)
    ensures t.sent == [] || Delivered(t.sent[..|t.sent| - 1], send)
    ensures t.completed ==> |t.sent| == |groups| && Delivered(t.sent, send)
    decreases |groups|
  {
    if |groups| == 0 then Trace([], true)
    else
      var m := AdvisorMail(groups[0], today, client);
      if m.Raised? then Trace([], false)
      else if !send(m.value) then Trace([m.value], false)
      else
        var rest := SendAdvisorMails(groups[1..], today, client, send);
        MailsForCons(groups, today, client, m.value, rest.sent);
        DeliveredCons(m.value, rest.sent, send);
        Trace([m.value] + rest.sent, rest.completed)
  }

  /** Every mail of `sent` was accepted by the email service. */
  predicate Delivered(sent: seq<Mail>, send: Mail -> bool) {
    forall i :: 0 <= i < |sent| ==> send(sent[i])
  }

  lemma DeliveredCons(mail: Mail, rest: seq<Mail>, send: Mail -> bool)
    requires send(mail)
    ensures Delivered(rest, send) ==> Delivered([mail] + rest, send)
    ensures |rest| > 0 && Delivered(rest[..|rest| - 1], send) ==> Delivered(([mail] + rest)[..|rest|], send)
    ensures |rest| == 0 ==> Delivered([mail] + rest, send)
  {
    if |rest| > 0 {
      assert ([mail] + rest)[..|rest|] == [mail] + rest[..|rest| - 1];
    }
  }

  /** `sent[i]` is the mail built for the `i`-th advisor group. */
  predicate MailsFor(groups: seq<Group<Json, Routed>>, today: Date, client: Group<string, Row> -> Json, sent: seq<Mail>)
    requires Valid(today)
  {
    |sent| <= |groups| && forall i :: 0 <= i < |sent| ==> AdvisorMail(groups[i], today, client) == Ok(sent[i])
  }

  lemma MailsForCons(groups: seq<Group<Json, Routed>>, today: Date, client: Group<string, Row> -> Json,
                     mail: Mail, rest: seq<Mail>)
    requires Valid(today) && |groups| > 0
    requires AdvisorMail(groups[0], today, client) == Ok(mail)
    requires MailsFor(groups[1..], today, client, rest)
    ensures MailsFor(groups, today, client, [mail] + rest)
  {
    forall i | 0 <= i < |[mail] + rest|
      ensures AdvisorMail(groups[i], today, client) == Ok(([mail] + rest)[i])
    {
      if i > 0 {
        assert groups[i] == groups[1..][i - 1];
      }
    }
  }

  /** Each advisor mail goes to the advisor of its group, in group order. */
  lemma AdvisorMailsAddressed(groups: seq<Group<Json, Routed>>, today: Date, client: Group<string, Row> -> Json,
                              send: Mail -> bool)
    requires Valid(today)
    ensures var t := SendAdvisorMails(groups, today, client, send);
      forall i :: 0 <= i < |t.sent| ==> t.sent[i].to == groups[i].key
  {
    var t := SendAdvisorMails(groups, today, client, send);
    assert MailsFor(groups, today, client, t.sent);
  }

  /** The rows a run would mail about: today's consolidated products. */
  function Expiring(d: ZipDownload, today: Date): Eval<seq<Row>>
    requires Valid(today)
  {
    match FilterProductsToExpire(ProcessCsv(d), today)
    case Raised => Raised
    case Ok(expiring) => ConsolidateOperations(expiring)
  }

  /** The run's mails after the desk mail are the advisor mails, one per
      advisor group, in group order. */
  predicate AdvisorsMailed(t: Trace, groups: seq<Group<Json, Routed>>, today: Date, client: Group<string, Row> -> Json)
    requires Valid(today)
  {
    |t.sent| >= 1 && MailsFor(groups, today, client, t.sent[1..])
    && (t.completed ==> |t.sent| == |groups| + 1)
  }

  /** `execute_daily_expiration_check` with the block and lookup choices
      as parameters: fetch, filter, consolidate, desk mail, then advisor
      mails.  Nothing catches inside it, so the first exception ends the
      run. */
  function Run(d: ZipDownload, today: Date, dir: SearchAdvisorEmail.Directory, notify: Json, send: Mail -> bool,
               client: Group<string, Row> -> Json, lookup: Row -> Eval<Json>): (t: Trace)
    requires Valid(today)
    ensures |t.sent| > 0 <==>
      Expiring(d, today).Ok? && DeskMail(Expiring(d, today).value, today, notify, client).Ok?
    ensures |t.sent| > 0 ==> t.sent[0] == DeskMail(Expiring(d, today).value, today, notify, client).value
    ensures |t.sent| > 0 && !send(t.sent[0]) ==> t == Trace([t.sent[0]], false)
    ensures |t.sent| > 0 && send(t.sent[0]) ==>
      var groups := GroupProductsByAdvisor(Expiring(d, today).value, lookup);
      (groups.Raised? ==> t == Trace([t.sent[0]], false)) &&
      (groups.Ok? ==> AdvisorsMailed(t, groups.value, today, client))
    ensures forall i, j :: 1 <= i < j < |t.sent| ==> t.sent[i].to != t.sent[j].to
  {
    match Expiring(d, today)
    case Raised => Trace([], false)
    case Ok(products) =>
      match DeskMail(products, today, notify, client)
      case Raised => Trace([], false)
      case Ok(desk) =>
        if !send(desk) then Trace([desk], false)
        else
          match GroupProductsByAdvisor(products, lookup)
          case Raised => Trace([desk], false)
          case Ok(groups) =>
            var advisors := SendAdvisorMails(groups, today, client, send);
            AdvisorMailsAddressed(groups, today, client, send);
            assert ([desk] + advisors.sent)[1..] == advisors.sent;
            Trace([desk] + advisors.sent, advisors.completed)
  }

  /** The check as written.  On a day with expiring products it raises
      before any mail is sent; on a day without, it sends exactly one
      header-only mail to the desk and none to advisors. */
  function ExecuteAsWritten(d: ZipDownload, today: Date, dir: SearchAdvisorEmail.Directory, notify: Json,
                            send: Mail -> bool): (t: Trace)
    requires Valid(today)
    ensures Expiring(d, today).Ok? && |Expiring(d, today).value| > 0 ==> t == Trace([], false)
    ensures Expiring(d, today) == Ok([]) ==>
      var desk := Mail(notify, Subject(today), DeskHeader);
      t == Trace([desk], send(desk))
    ensures Expiring(d, today).Raised? ==> t == Trace([], false)
  {
    var t := Run(d, today, dir, notify, send, ClientAsWritten, p => AdvisorEmailAsWritten(dir, p));
    if Expiring(d, today).Ok? && |Expiring(d, today).value| > 0 then
      var products := Expiring(d, today).value;
      assert GroupByClient(products).Ok? && |GroupByClient(products).value| > 0 by {
        var g := GroupByClient(products).value;
        assert Sizes(g) > 0;
      }
      SectionsAsWrittenRaise(GroupByClient(products).value);
      t
    else if Expiring(d, today) == Ok([]) then
      assert GroupByClient([]) == Ok([]);
      assert GroupProductsByAdvisor([], p => AdvisorEmailAsWritten(dir, p)) == Ok([]);
      assert DeskHeader + "" == DeskHeader;
      t
    else
      t
  }

  /** The check with the client block read from the group's first row and
      advisor misses skipped.  The desk mail goes first; if it fails, no
      advisor is mailed; otherwise each advisor with products is mailed
      once, at a distinct address. */
  function Execute(d: ZipDownload, today: Date, dir: SearchAdvisorEmail.Directory, notify: Json,
                   send: Mail -> bool): (t: Trace)
    requires Valid(today)
    ensures |t.sent| > 0 <==>
      Expiring(d, today).Ok? && DeskMail(Expiring(d, today).value, today, notify, ClientRecord).Ok?
    ensures |t.sent| > 0 ==> t.sent[0] == DeskMail(Expiring(d, today).value, today, notify, ClientRecord).value
    ensures |t.sent| > 0 && !send(t.sent[0]) ==> t == Trace([t.sent[0]], false)
    ensures |t.sent| > 0 && send(t.sent[0]) ==>
      var groups := GroupProductsByAdvisor(Expiring(d, today).value, p => AdvisorEmail(dir, p));
      (groups.Raised? ==> t == Trace([t.sent[0]], false)) &&
      (groups.Ok? ==> AdvisorsAddressed(t, groups.value))
    ensures forall i, j :: 1 <= i < j < |t.sent| ==> t.sent[i].to != t.sent[j].to
    ensures Expiring(d, today).Raised? ==> t == Trace([], false)
  {
    var t := Run(d, today, dir, notify, send, ClientRecord, p => AdvisorEmail(dir, p));
    if |t.sent| > 0 && send(t.sent[0]) && GroupProductsByAdvisor(Expiring(d, today).value, p => AdvisorEmail(dir, p)).Ok? then
      MailedIsAddressed(t, GroupProductsByAdvisor(Expiring(d, today).value, p => AdvisorEmail(dir, p)).value, today, ClientRecord);
      t
    else
      t
  }

  /** After the desk mail, mail `i` goes to the advisor of group `i - 1`,
      and a finished run has mailed every advisor. */
  predicate AdvisorsAddressed(t: Trace, groups: seq<Group<Json, Routed>>) {
    1 <= |t.sent| <= |groups| + 1
    && (forall i :: 1 <= i < |t.sent| ==> t.sent[i].to == groups[i - 1].key)
    && (t.completed ==> |t.sent| == |groups| + 1)
  }

  lemma MailedIsAddressed(t: Trace, groups: seq<Group<Json, Routed>>, today: Date, client: Group<string, Row> -> Json)
    requires Valid(today) && AdvisorsMailed(t, groups, today, client)
    ensures AdvisorsAddressed(t, groups)
  {
    forall i | 1 <= i < |t.sent| ensures t.sent[i].to == groups[i - 1].key {
      assert AdvisorMail(groups[i - 1], today, client) == Ok(t.sent[1..][i - 1]);
    }
  }

  /** The outcome the custody controller sees from the check. */
  function CheckOutcome(t: Trace): Eval<Json> {
    if t.completed then Ok(Null) else Raised
  }

  /** As written, a custody callback on a day with expiring products is
      answered with the custody-specific 500. */
  lemma ExpiringDayFailsCallback(req: Request, custody: Eval<Json>, fetch: Json -> ZipDownload, today: Date,
                                 dir: SearchAdvisorEmail.Directory, notify: Json, send: Mail -> bool)
    requires Valid(today)
    requires CustodyController.CallbackUrl(SilentJson(req)).Some?
    requires var d := fetch(CustodyController.CallbackUrl(SilentJson(req)).value);
      Expiring(d, today).Ok? && |Expiring(d, today).value| > 0
    ensures CustodyController.Handle(req, custody,
              url => CheckOutcome(ExecuteAsWritten(fetch(url), today, dir, notify, send))).reply
            == CustodyController.CheckFailed
  {
  }
}
