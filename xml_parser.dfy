/** The Experian field extractor (`parseExperianXML`): from the tree the XML
    library produces to the normalised report record. Every lookup follows
    JavaScript's optional chaining, `||` and `Number` as the extractor uses them. */
module XmlParser {
  import opened Common

  // ---------------------------------------------------------------------------
  // The parsed tree and JavaScript lookups over it
  // ---------------------------------------------------------------------------

  /** What the XML library yields (with `explicitArray: false`): an element with
      only text is a string, an element with children is an object keyed by
      child name, and a repeated child is an array. */
  datatype Node = Text(s: string) | Obj(fields: map<string, Node>) | Arr(items: seq<Node>)

  /** A JavaScript value met during lookups: `None` is `undefined`. */
  type Value = Option<Node>

  /** The outcome of reading and parsing the file's text, which happens in
      a library and is not modelled: a thrown parse error, or the parse result. */
  datatype XmlInput = Malformed(reason: string) | Parsed(doc: Value)

  const EmptyObject: Node := Obj(map[])

  /** JavaScript truthiness of a tree value: only `undefined` and `""` are falsy
      (objects and arrays are truthy, even when empty). */
  predicate Truthy(v: Value) {
    v.Some? && v.value != Text("")
  }

  /** `v || d` */
  function Or(v: Value, d: Node): (r: Node)
    ensures Truthy(v) ==> Some(r) == v
    ensures !Truthy(v) ==> r == d
  {
    if Truthy(v) then v.value else d
  }

  /** `v?.[key]` for an element name. */
  function Prop(v: Value, key: string): Value {
    if v.Some? && v.value.Obj? && key in v.value.fields then Some(v.value.fields[key]) else None
  }

  /** `v?.k1?.k2?. ... ?.kn` */
  function Path(v: Value, keys: seq<string>): Value
    decreases |keys|
  {
    if keys == [] then v else Path(Prop(v, keys[0]), keys[1..])
  }

  lemma {:induction false} PathFromUndefined(keys: seq<string>)
    ensures Path(None, keys) == None
    decreases |keys|
  {
    if keys != [] { PathFromUndefined(keys[1..]); }
  }

  /** A lookup in `{}`, or in a string, is `undefined` however long the path. */
  lemma PathFromLeaf(n: Node, keys: seq<string>)
    requires n == EmptyObject || n.Text?
    requires keys != []
    ensures Path(Some(n), keys) == None
  {
    PathFromUndefined(keys[1..]);
  }

  /** `v?.[0]`: the first item of an array, the property named "0" of an
      object, the first character of a string. */
  function Index0(v: Value): Value {
    match v
    case None => None
    case Some(Arr(items)) => if |items| > 0 then Some(items[0]) else None
    case Some(Obj(fields)) => if "0" in fields then Some(fields["0"]) else None
    case Some(Text(s)) => if |s| > 0 then Some(Text(s[..1])) else None
  }

  /** `parts.join(sep)` for strings. */
  function Join(parts: seq<string>, sep: string): string {
    if |parts| == 0 then ""
    else if |parts| == 1 then parts[0]
    else parts[0] + sep + Join(parts[1..], sep)
  }

  /** `String(n)`: what a template literal or `join` makes of a tree value. */
  function JsString(n: Node): string {
    match n
    case Text(s) => s
    case Obj(_) => "[object Object]"
    case Arr(items) => Join(seq(|items|, i requires 0 <= i < |items| => JsString(items[i])), ",")
  }

  /** `String(v || "")`: the text of a string field, `""` when it is absent or empty. */
  function TextOr(v: Value): (r: string)
    ensures !Truthy(v) ==> r == ""
    ensures v.Some? && v.value.Text? ==> r == v.value.s
  {
    JsString(Or(v, Text("")))
  }

  // ---------------------------------------------------------------------------
  // String.prototype.trim
  // ---------------------------------------------------------------------------

  /** The characters `trim` removes: ECMAScript WhiteSpace and LineTerminator. */
  predicate IsJsWhitespace(c: char) {
    c == '\t' || c == '\n' || c == '\U{000B}' || c == '\U{000C}' || c == '\r' || c == ' '
    || c == '\U{00A0}' || c == '\U{1680}' || ('\U{2000}' <= c <= '\U{200A}')
    || c == '\U{2028}' || c == '\U{2029}' || c == '\U{202F}' || c == '\U{205F}'
    || c == '\U{3000}' || c == '\U{FEFF}'
  }

  predicate AllWhitespace(s: string) {
    forall k :: 0 <= k < |s| ==> IsJsWhitespace(s[k])
  }

  /** Neither end of `s` is whitespace. */
  predicate Trimmed(s: string) {
    s != [] ==> !IsJsWhitespace(s[0]) && !IsJsWhitespace(s[|s| - 1])
  }

  /** Drops the leading whitespace. */
  function TrimStart(s: string): (r: string)
    ensures |r| <= |s|
  {
    if |s| > 0 && IsJsWhitespace(s[0]) then TrimStart(s[1..]) else s
  }

  /** Drops the trailing whitespace. */
  function TrimEnd(s: string): (r: string)
    ensures |r| <= |s|
  {
    if |s| > 0 && IsJsWhitespace(s[|s| - 1]) then TrimEnd(s[..|s| - 1]) else s
  }

  /** `TrimStart` keeps the longest suffix of `s` that does not start with
      whitespace: everything before it is whitespace. */
  lemma {:induction false} TrimStartSpec(s: string)
    ensures var r := TrimStart(s);
      && (forall k :: 0 <= k < |r| ==> r[k] == s[|s| - |r| + k])
      && (forall k :: 0 <= k < |s| - |r| ==> IsJsWhitespace(s[k]))
      && (r != [] ==> !IsJsWhitespace(r[0]))
    decreases |s|
  {
    if |s| > 0 && IsJsWhitespace(s[0]) {
      TrimStartSpec(s[1..]);
      var r := TrimStart(s[1..]);
      forall k | 0 <= k < |r|
        ensures r[k] == s[|s| - |r| + k]
      {
        assert r[k] == s[1..][|s| - 1 - |r| + k];
      }
      forall k | 0 < k < |s| - |r|
        ensures IsJsWhitespace(s[k])
      {
        assert s[k] == s[1..][k - 1];
      }
    }
  }

  /** `TrimEnd` keeps the longest prefix of `s` that does not end with
      whitespace: everything after it is whitespace. */
  lemma {:induction false} TrimEndSpec(s: string)
    ensures var r := TrimEnd(s);
      && (forall k :: 0 <= k < |r| ==> r[k] == s[k])
      && (forall k :: |r| <= k < |s| ==> IsJsWhitespace(s[k]))
      && (r != [] ==> !IsJsWhitespace(r[|r| - 1]))
    decreases |s|
  {
    if |s| > 0 && IsJsWhitespace(s[|s| - 1]) {
      TrimEndSpec(s[..|s| - 1]);
      var r := TrimEnd(s[..|s| - 1]);
      forall k | 0 <= k < |r|
        ensures r[k] == s[k]
      {
        assert r[k] == s[..|s| - 1][k];
      }
      forall k | |r| <= k < |s| - 1
        ensures IsJsWhitespace(s[k])
      {
        assert s[k] == s[..|s| - 1][k];
      }
    }
  }

  /** What `trim` keeps has no whitespace at either end. */
  lemma TrimBothEndsTrimmed(s: string)
    ensures Trimmed(TrimEnd(TrimStart(s)))
  {
    TrimStartSpec(s);
    TrimEndSpec(TrimStart(s));
  }

  /** `s` is all whitespace when `trim` keeps nothing of it. */
  lemma TrimBothEndsEmpty(s: string)
    requires TrimEnd(TrimStart(s)) == []
    ensures AllWhitespace(s)
  {
    var t := TrimStart(s);
    TrimStartSpec(s);
    TrimEndSpec(t);
    assert t == [];
  }

  /** `trim` keeps nothing of a string that is all whitespace. */
  lemma TrimBothEndsNonEmpty(s: string)
    requires AllWhitespace(s)
    ensures TrimEnd(TrimStart(s)) == []
  {
    var t := TrimStart(s);
    TrimStartSpec(s);
    TrimEndSpec(t);
    assert forall k :: 0 <= k < |t| ==> IsJsWhitespace(t[k]);
  }

  /** `trim` leaves an already-trimmed string as it is. */
  lemma TrimBothEndsKeepsTrimmed(s: string)
    requires Trimmed(s)
    ensures TrimEnd(TrimStart(s)) == s
  {
    if s != [] {
      assert TrimStart(s) == s;
    }
  }

  /** `s.trim()` */
  function Trim(s: string): (r: string)
    ensures Trimmed(r)
    ensures r == [] <==> AllWhitespace(s)
    ensures Trimmed(s) ==> r == s
  {
    TrimBothEndsTrimmed(s);
    if AllWhitespace(s) then TrimBothEndsNonEmpty(s); TrimEnd(TrimStart(s))
    else if TrimEnd(TrimStart(s)) == [] then TrimBothEndsEmpty(s); TrimEnd(TrimStart(s))
    else if Trimmed(s) then TrimBothEndsKeepsTrimmed(s); TrimEnd(TrimStart(s))
    else TrimEnd(TrimStart(s))
  }

  // ---------------------------------------------------------------------------
  // Number(x || 0)
  // ---------------------------------------------------------------------------

  /** A number the extractor stores. `Exact(n)` is a value the model computes;
      `Unmodelled(x)` is JavaScript's `Number(x)` of a value whose conversion the
      model does not follow (decimals, whitespace, hexadecimal, digit strings
      past 2^53 - 1, objects). That value may be NaN or a number such as 0
      (`Number(" ")`); the model does not compute it. */
  datatype Num = Exact(value: nat) | Unmodelled(source: Node)

  /** Number.MAX_SAFE_INTEGER: every integer up to it is an exact double. */
  const MaxSafeInteger: nat := 9007199254740991

  predicate IsDigit(c: char) { '0' <= c <= '9' }

  predicate IsDigits(s: string) {
    |s| > 0 && forall k :: 0 <= k < |s| ==> IsDigit(s[k])
  }

  /** The value of a decimal digit string, most significant digit first. */
  function DigitsValue(s: string): nat
    requires forall k :: 0 <= k < |s| ==> IsDigit(s[k])
  {
    if s == [] then 0
    else
      var last := s[|s| - 1];
      assert IsDigit(last);
      10 * DigitsValue(s[..|s| - 1]) + (last as int - '0' as int)
  }

  /** `Number(v || 0)` */
  function NumberOf(v: Value): (r: Num)
    ensures !Truthy(v) ==> r == Exact(0)
    ensures r.Exact? && Truthy(v) ==> v.value.Text? && IsDigits(v.value.s)
  {
    if !Truthy(v) then Exact(0)
    else match v.value
      case Text(s) =>
        if IsDigits(s) && DigitsValue(s) <= MaxSafeInteger then Exact(DigitsValue(s)) else Unmodelled(v.value)
      case _ => Unmodelled(v.value)
  }

  // ---------------------------------------------------------------------------
  // The record the extractor returns (the shape of backend/models/creditReport.js)
  // ---------------------------------------------------------------------------

  datatype BasicDetails = BasicDetails(name: string, mobilePhone: string, pan: string, creditScore: Num)

  datatype ReportSummary = ReportSummary(
    totalAccounts: Num,
    activeAccounts: Num,
    closedAccounts: Num,
    currentBalanceAmount: Num,
    securedAccountsAmount: Num,
    unsecuredAccountsAmount: Num,
    last7DaysCreditEnquiries: Num)

  datatype CreditAccount = CreditAccount(
    bankName: string,
    accountNumber: string,
    accountType: string,
    currentBalance: Num,
    amountOverdue: Num,
    address: string)

  datatype ExtractedReport = ExtractedReport(
    basicDetails: BasicDetails,
    reportSummary: ReportSummary,
    creditAccounts: seq<CreditAccount>)

  // ---------------------------------------------------------------------------
  // The element names the extractor reads
  // ---------------------------------------------------------------------------

  const RootElement: string := "INProfileResponse"
  const ApplicantPath: seq<string> := ["Current_Application", "Current_Application_Details", "Current_Applicant_Details"]
  const FirstNameElement: string := "First_Name"
  const LastNameElement: string := "Last_Name"
  const MobilePhoneElement: string := "MobilePhoneNumber"
  const PanElement: string := "Income_TAX_PAN"
  const ScorePath: seq<string> := ["SCORE", "BureauScore"]

  const AccountDetailsPath: seq<string> := ["CAIS_Account", "CAIS_Account_DETAILS"]
  const HolderPanPath: seq<string> := ["CAIS_Holder_Details", PanElement]

  const CaisSummaryPath: seq<string> := ["CAIS_Account", "CAIS_Summary"]
  const TotalAccountsPath: seq<string> := ["Credit_Account", "CreditAccountTotal"]
  const ActiveAccountsPath: seq<string> := ["Credit_Account", "CreditAccountActive"]
  const ClosedAccountsPath: seq<string> := ["Credit_Account", "CreditAccountClosed"]
  const BalanceAllPath: seq<string> := ["Total_Outstanding_Balance", "Outstanding_Balance_All"]
  const BalanceSecuredPath: seq<string> := ["Total_Outstanding_Balance", "Outstanding_Balance_Secured"]
  const BalanceUnsecuredPath: seq<string> := ["Total_Outstanding_Balance", "Outstanding_Balance_UnSecured"]
  const EnquiriesPath: seq<string> := ["CAPS", "CAPS_Summary", "Last7DaysCreditEnquiries"]

  const BankNameElement: string := "Subscriber_Name"
  const AccountNumberElement: string := "Account_Number"
  const AccountTypeElement: string := "Account_Type"
  const CurrentBalanceElement: string := "Current_Balance"
  const AmountOverdueElement: string := "Amount_Past_Due"
  const HolderAddressElement: string := "CAIS_Holder_Address_Details"

  // ---------------------------------------------------------------------------
  // Extraction
  // ---------------------------------------------------------------------------

  const ZeroSummary: ReportSummary :=
    ReportSummary(Exact(0), Exact(0), Exact(0), Exact(0), Exact(0), Exact(0), Exact(0))

  /** `result?.INProfileResponse || {}` */
  function ReportRoot(doc: Value): Node {
    Or(Prop(doc, RootElement), EmptyObject)
  }

  /** `report?.Current_Application?.Current_Application_Details?.Current_Applicant_Details || {}` */
  function Applicant(report: Node): Node {
    Or(Path(Some(report), ApplicantPath),
       EmptyObject)
  }

  /** `${first || ""} ${last || ""}`.trim() || "Unknown": never empty, and
      never starting or ending with whitespace. */
  function FullName(first: Value, last: Value): (r: string)
    ensures r != ""
    ensures Trimmed(r)
  {
    var joined := Trim(TextOr(first) + " " + TextOr(last));
    if joined == "" then "Unknown" else joined
  }

  /** `report?.CAIS_Account?.CAIS_Account_DETAILS` */
  function AccountDetails(report: Node): Value {
    Path(Some(report), AccountDetailsPath)
  }

  /** `report?.CAIS_Account?.CAIS_Account_DETAILS?.[0]?.CAIS_Holder_Details?.Income_TAX_PAN` */
  function HolderPan(report: Node): Value {
    Path(Index0(AccountDetails(report)), HolderPanPath)
  }

  /** `holderPan || applicant?.Income_TAX_PAN || ""` */
  function ResolvePan(holderPan: Value, applicantPan: Value): string {
    if Truthy(holderPan) then JsString(holderPan.value) else TextOr(applicantPan)
  }

  /** The seven summary numbers; those whose sources are absent are 0. */
  function Summary(report: Node): (r: ReportSummary)
    ensures !Truthy(Path(Some(report), CaisSummaryPath)) && !Truthy(Path(Some(report), EnquiriesPath)) ==>
              r == ZeroSummary
  {
    PathFromUndefined(TotalAccountsPath[1..]);
    PathFromUndefined(BalanceAllPath[1..]);
    var cais := Some(Or(Path(Some(report), CaisSummaryPath), EmptyObject));
    ReportSummary(
      NumberOf(Path(cais, TotalAccountsPath)),
      NumberOf(Path(cais, ActiveAccountsPath)),
      NumberOf(Path(cais, ClosedAccountsPath)),
      NumberOf(Path(cais, BalanceAllPath)),
      NumberOf(Path(cais, BalanceSecuredPath)),
      NumberOf(Path(cais, BalanceUnsecuredPath)),
      NumberOf(Path(Some(report), EnquiriesPath)))
  }

  /** `raw || []`, then `Array.isArray(raw) ? raw : [raw]`: no accounts when
      the node is absent or empty, the items of an array, and a lone account
      otherwise. */
  function AccountList(raw: Value): (r: seq<Node>)
    ensures !Truthy(raw) ==> r == []
    ensures raw.Some? && raw.value.Arr? ==> r == raw.value.items
    ensures Truthy(raw) && !raw.value.Arr? ==> r == [raw.value]
  {
    var accounts := Or(raw, Arr([]));
    if accounts.Arr? then accounts.items else [accounts]
  }

  /** The seven address components, in the order they are joined. */
  const AddressFields: seq<string> := [
    "First_Line_Of_Address_non_normalized",
    "Second_Line_Of_Address_non_normalized",
    "Third_Line_Of_Address_non_normalized",
    "City_non_normalized",
    "State_non_normalized",
    "ZIP_Postal_Code_non_normalized",
    "CountryCode_non_normalized"]

  /** `.filter(Boolean)` followed by the string conversion `join` applies:
      one segment per truthy component, in order. */
  function Segments(parts: seq<Value>): (r: seq<string>)
    ensures |r| <= |parts|
  {
    if parts == [] then []
    else (if Truthy(parts[0]) then [JsString(parts[0].value)] else []) + Segments(parts[1..])
  }

  /** No segment is kept exactly when no component is truthy, and when every
      component is absent or a string, no kept segment is empty. */
  lemma {:induction false} SegmentsSpec(parts: seq<Value>)
    ensures Segments(parts) == [] <==> forall i :: 0 <= i < |parts| ==> !Truthy(parts[i])
    ensures (forall i :: 0 <= i < |parts| ==> parts[i].None? || parts[i].value.Text?) ==>
              forall j :: 0 <= j < |Segments(parts)| ==> Segments(parts)[j] != ""
    decreases |parts|
  {
    if parts != [] {
      SegmentsSpec(parts[1..]);
      assert forall i :: 1 <= i < |parts| ==> parts[i] == parts[1..][i - 1];
    }
  }

  /** The seven components of a holder address, in the order they are joined. */
  function AddressParts(holderAddress: Node): (r: seq<Value>)
    ensures |r| == 7
    ensures forall i :: 0 <= i < 7 ==> r[i] == Prop(Some(holderAddress), AddressFields[i])
  {
    var h := Some(holderAddress);
    [Prop(h, AddressFields[0]), Prop(h, AddressFields[1]), Prop(h, AddressFields[2]),
     Prop(h, AddressFields[3]), Prop(h, AddressFields[4]), Prop(h, AddressFields[5]),
     Prop(h, AddressFields[6])]
  }

  /** The address of one account: its non-empty components joined with ", ". */
  function Address(holderAddress: Node): string {
    Join(Segments(AddressParts(holderAddress)), ", ")
  }

  /** The callback of `accountsArray.map`. */
  function ExtractAccount(acc: Node): CreditAccount {
    var a := Some(acc);
    CreditAccount(
      TextOr(Prop(a, BankNameElement)),
      TextOr(Prop(a, AccountNumberElement)),
      TextOr(Prop(a, AccountTypeElement)),
      NumberOf(Prop(a, CurrentBalanceElement)),
      NumberOf(Prop(a, AmountOverdueElement)),
      Address(Or(Prop(a, HolderAddressElement), EmptyObject)))
  }

  function ExtractAccounts(accounts: seq<Node>): (r: seq<CreditAccount>)
    ensures |r| == |accounts|
    ensures forall i :: 0 <= i < |accounts| ==> r[i] == ExtractAccount(accounts[i])
  {
    seq(|accounts|, i requires 0 <= i < |accounts| => ExtractAccount(accounts[i]))
  }

  /** `{ name, mobilePhone, pan, creditScore }` of a report root. */
  function Details(report: Node): BasicDetails {
    var applicant := Some(Applicant(report));
    BasicDetails(
      FullName(Prop(applicant, FirstNameElement), Prop(applicant, LastNameElement)),
      TextOr(Prop(applicant, MobilePhoneElement)),
      ResolvePan(HolderPan(report), Prop(applicant, PanElement)),
      NumberOf(Path(Some(report), ScorePath)))
  }

  /** The body of `parseExperianXML` after parsing: a total function of the tree. */
  function ExtractReport(doc: Value): ExtractedReport {
    var report := ReportRoot(doc);
    ExtractedReport(Details(report), Summary(report), ExtractAccounts(AccountList(AccountDetails(report))))
  }

  /** The record of a tree without a (non-empty) `INProfileResponse` root. */
  const NoRootReport: ExtractedReport :=
    ExtractedReport(BasicDetails("Unknown", "", "", Exact(0)), ZeroSummary, [])

  /** `parseExperianXML`: a parse error is thrown on unchanged; a parse result
      always yields a record, and a tree without a report root is not an
      error: every field takes its default. */
  function ParseExperianXML(xml: XmlInput): (r: Result<ExtractedReport>)
    ensures xml.Malformed? <==> r.Err?
    ensures r.Err? ==> r.error == Failure(None, xml.reason)
    ensures r.Ok? ==> r.value == ExtractReport(xml.doc)
    ensures xml.Parsed? && !Truthy(Prop(xml.doc, RootElement)) ==> r == Ok(NoRootReport)
  {
    match xml
    case Malformed(reason) => Err(Failure(None, reason))
    case Parsed(doc) =>
      if Truthy(Prop(doc, RootElement)) then Ok(ExtractReport(doc))
      else
        PathFromLeaf(EmptyObject, ApplicantPath);
        PathFromLeaf(EmptyObject, AccountDetailsPath);
        PathFromLeaf(EmptyObject, CaisSummaryPath);
        PathFromLeaf(EmptyObject, EnquiriesPath);
        PathFromLeaf(EmptyObject, ScorePath);
        PathFromUndefined(HolderPanPath);
        assert AllWhitespace(" ");
        Ok(ExtractReport(doc))
  }
}
