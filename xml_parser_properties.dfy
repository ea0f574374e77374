/** What the extractor promises about the record it builds: the name
    fallback, the order in which the PAN is resolved, the account list shape,
    the address join, the numeric defaults, and the record of a tree without a
    report root. */
module XmlParserProperties {
  import opened Common
  import opened XmlParser

  // ---------------------------------------------------------------------------
  // Name
  // ---------------------------------------------------------------------------

  lemma {:induction false} TrimStartDropsPadding(a: string, f: string)
    requires AllWhitespace(a)
    requires f == [] || !IsJsWhitespace(f[0])
    ensures TrimStart(a + f) == f
    decreases |a|
  {
    if a != [] {
      assert (a + f)[1..] == a[1..] + f;
      TrimStartDropsPadding(a[1..], f);
    } else {
      assert a + f == f;
    }
  }

  lemma {:induction false} TrimEndDropsPadding(f: string, b: string)
    requires AllWhitespace(b)
    requires f == [] || !IsJsWhitespace(f[|f| - 1])
    ensures TrimEnd(f + b) == f
    decreases |b|
  {
    if b != [] {
      assert (f + b)[..|f + b| - 1] == f + b[..|b| - 1];
      TrimEndDropsPadding(f, b[..|b| - 1]);
    } else {
      assert f + b == f;
    }
  }

  /** `trim` removes exactly the whitespace around a word. */
  lemma TrimDropsPadding(a: string, f: string, b: string)
    requires AllWhitespace(a) && AllWhitespace(b)
    requires f != [] && Trimmed(f)
    ensures Trim(a + f + b) == f
  {
    assert a + f + b == a + (f + b);
    TrimStartDropsPadding(a, f + b);
    TrimEndDropsPadding(f, b);
  }

  /** First and last name absent, empty or blank: the name is "Unknown". */
  lemma NameFallsBackToUnknown(first: Value, last: Value)
    requires AllWhitespace(TextOr(first)) && AllWhitespace(TextOr(last))
    ensures FullName(first, last) == "Unknown"
  {
    var joined := TextOr(first) + " " + TextOr(last);
    forall k | 0 <= k < |joined| ensures IsJsWhitespace(joined[k]) {
      if k < |TextOr(first)| {
        assert joined[k] == TextOr(first)[k];
      } else if k > |TextOr(first)| {
        assert joined[k] == TextOr(last)[k - |TextOr(first)| - 1];
      }
    }
  }

  /** Both parts present and without surrounding whitespace: "first last". */
  lemma NameJoinsBothParts(first: Value, last: Value, f: string, l: string)
    requires first == Some(Text(f)) && last == Some(Text(l))
    requires f != "" && l != "" && Trimmed(f) && Trimmed(l)
    ensures FullName(first, last) == f + " " + l
  {
    var joined := f + " " + l;
    assert joined[0] == f[0] && joined[|joined| - 1] == l[|l| - 1];
  }

  /** Only the first name present: the name is that first name. */
  lemma NameFromFirstOnly(first: Value, last: Value, f: string)
    requires first == Some(Text(f)) && !Truthy(last)
    requires f != "" && Trimmed(f)
    ensures FullName(first, last) == f
  {
    TrimDropsPadding("", f, " ");
    assert f + " " + "" == "" + f + " ";
  }

  /** Only the last name present: the name is that last name. */
  lemma NameFromLastOnly(first: Value, last: Value, l: string)
    requires !Truthy(first) && last == Some(Text(l))
    requires l != "" && Trimmed(l)
    ensures FullName(first, last) == l
  {
    TrimDropsPadding(" ", l, "");
    assert "" + " " + l == " " + l + "";
  }

  // ---------------------------------------------------------------------------
  // PAN
  // ---------------------------------------------------------------------------

  /** The applicant's own PAN field. */
  function ApplicantPan(doc: Value): Value {
    Prop(Some(Applicant(ReportRoot(doc))), PanElement)
  }

  /** An account array whose first entry has a holder PAN: that PAN is used,
      whatever the applicant's PAN is. */
  lemma PanFromFirstAccountHolder(doc: Value, items: seq<Node>, p: string)
    requires AccountDetails(ReportRoot(doc)) == Some(Arr(items))
    requires |items| > 0 && Path(Some(items[0]), HolderPanPath) == Some(Text(p)) && p != ""
    ensures ExtractReport(doc).basicDetails.pan == p
  {
    var report := ReportRoot(doc);
    assert Index0(AccountDetails(report)) == Some(items[0]);
    assert HolderPan(report) == Some(Text(p));
    assert Details(report).pan == p;
  }

  /** For an account array, the holder PAN is the first entry's and no other:
      a later entry's PAN is never consulted. */
  lemma HolderPanFromFirstEntryOnly(doc: Value, items: seq<Node>)
    requires AccountDetails(ReportRoot(doc)) == Some(Arr(items)) && |items| > 0
    ensures HolderPan(ReportRoot(doc)) == Path(Some(items[0]), HolderPanPath)
  {
  }

  /** No usable holder PAN: the applicant's non-empty PAN is used. */
  lemma PanFromApplicant(doc: Value, p: string)
    requires !Truthy(HolderPan(ReportRoot(doc)))
    requires ApplicantPan(doc) == Some(Text(p)) && p != ""
    ensures ExtractReport(doc).basicDetails.pan == p
  {
  }

  /** Neither PAN present or non-empty: the PAN is "". */
  lemma PanEmptyWhenNeither(doc: Value)
    requires !Truthy(HolderPan(ReportRoot(doc))) && !Truthy(ApplicantPan(doc))
    ensures ExtractReport(doc).basicDetails.pan == ""
  {
  }

  /** A single account delivered as an object (not an array) never supplies
      the PAN: `?.[0]` of an object is `undefined`, since element names cannot
      start with a digit. */
  lemma ScalarAccountNeverSuppliesPan(doc: Value, fields: map<string, Node>)
    requires AccountDetails(ReportRoot(doc)) == Some(Obj(fields)) && "0" !in fields
    ensures ExtractReport(doc).basicDetails.pan == TextOr(ApplicantPan(doc))
  {
    PathFromUndefined(HolderPanPath);
  }

  // ---------------------------------------------------------------------------
  // Account list shape
  // ---------------------------------------------------------------------------

  /** No account node, or an empty one: no accounts. */
  lemma AccountsWhenAbsent(doc: Value)
    requires !Truthy(AccountDetails(ReportRoot(doc)))
    ensures ExtractReport(doc).creditAccounts == []
  {
  }

  /** An array of n account nodes: n accounts, in the same order. */
  lemma AccountsFromArray(doc: Value, items: seq<Node>)
    requires AccountDetails(ReportRoot(doc)) == Some(Arr(items))
    ensures |ExtractReport(doc).creditAccounts| == |items|
    ensures forall i :: 0 <= i < |items| ==> ExtractReport(doc).creditAccounts[i] == ExtractAccount(items[i])
  {
  }

  /** A single account node that is not an array: exactly one account. */
  lemma AccountsFromScalar(doc: Value, acc: Node)
    requires AccountDetails(ReportRoot(doc)) == Some(acc) && !acc.Arr? && acc != Text("")
    ensures ExtractReport(doc).creditAccounts == [ExtractAccount(acc)]
  {
    assert AccountList(AccountDetails(ReportRoot(doc))) == [acc];
  }

  /** A scalar account node and a one-element array holding it give the same
      accounts. */
  lemma ScalarAndSingletonGiveSameAccounts(acc: Node)
    requires !acc.Arr? && acc != Text("")
    ensures ExtractAccounts(AccountList(Some(acc))) == ExtractAccounts(AccountList(Some(Arr([acc]))))
  {
  }

  /** The same single account, delivered as an object in one document and as
      a one-element array in another, gives the same accounts but not the same
      PAN: only the array form supplies the holder's PAN. */
  lemma SingleAccountShapeChangesOnlyPan(scalar: Value, wrapped: Value, acc: Node, p: string)
    requires AccountDetails(ReportRoot(scalar)) == Some(acc) && AccountDetails(ReportRoot(wrapped)) == Some(Arr([acc]))
    requires acc.Obj? && "0" !in acc.fields
    requires Path(Some(acc), HolderPanPath) == Some(Text(p)) && p != ""
    requires !Truthy(ApplicantPan(scalar))
    ensures ExtractReport(scalar).creditAccounts == ExtractReport(wrapped).creditAccounts
    ensures ExtractReport(wrapped).basicDetails.pan == p
    ensures ExtractReport(scalar).basicDetails.pan == ""
  {
    ScalarAndSingletonGiveSameAccounts(acc);
    PanFromFirstAccountHolder(wrapped, [acc], p);
    ScalarAccountNeverSuppliesPan(scalar, acc.fields);
  }

  // ---------------------------------------------------------------------------
  // Address
  // ---------------------------------------------------------------------------

  /** Filtering keeps the order of the components. */
  lemma {:induction false} SegmentsAppend(a: seq<Value>, b: seq<Value>)
    ensures Segments(a + b) == Segments(a) + Segments(b)
    decreases |a|
  {
    if a == [] {
      assert a + b == b;
    } else {
      var head := if Truthy(a[0]) then [JsString(a[0].value)] else [];
      assert (a + b)[0] == a[0] && (a + b)[1..] == a[1..] + b;
      assert Segments(a + b) == head + Segments(a[1..] + b);
      assert Segments(a) == head + Segments(a[1..]);
      SegmentsAppend(a[1..], b);
      assert head + (Segments(a[1..]) + Segments(b)) == (head + Segments(a[1..])) + Segments(b);
    }
  }

  /** The positions of the components `.filter(Boolean)` keeps. */
  ghost function TruthyIndices(parts: seq<Value>): set<int> {
    set i | 0 <= i < |parts| && Truthy(parts[i])
  }

  /** Segment `j` is the string of component `pos[j]`, a truthy one, and the
      positions increase. */
  ghost predicate KeptInOrder(parts: seq<Value>, pos: seq<int>) {
    && |pos| == |Segments(parts)|
    && (forall j :: 0 <= j < |pos| ==>
          0 <= pos[j] < |parts| && Truthy(parts[pos[j]]) && Segments(parts)[j] == JsString(parts[pos[j]].value))
    && (forall j, k :: 0 <= j < k < |pos| ==> pos[j] < pos[k])
  }

  /** Appending one component appends its segment, if it is truthy. */
  lemma SegmentsSnoc(init: seq<Value>, x: Value)
    ensures Segments(init + [x]) == Segments(init) + (if Truthy(x) then [JsString(x.value)] else [])
  {
    SegmentsAppend(init, [x]);
    assert [x][1..] == [];
  }

  /** Appending one component adds its position, if it is truthy. */
  lemma TruthyIndicesSnoc(init: seq<Value>, x: Value)
    ensures TruthyIndices(init + [x]) == TruthyIndices(init) + (if Truthy(x) then {|init|} else {})
    ensures |init| !in TruthyIndices(init)
  {
    var parts := init + [x];
    assert forall i :: 0 <= i < |init| ==> parts[i] == init[i];
  }

  /** As many segments as truthy components. */
  lemma {:induction false} SegmentsCount(parts: seq<Value>)
    ensures |Segments(parts)| == |TruthyIndices(parts)|
    decreases |parts|
  {
    if parts == [] {
      assert TruthyIndices(parts) == {};
    } else {
      var init, x := parts[..|parts| - 1], parts[|parts| - 1];
      assert parts == init + [x];
      SegmentsCount(init);
      SegmentsSnoc(init, x);
      TruthyIndicesSnoc(init, x);
    }
  }

  /** Segment `j` comes from a truthy component, and the components the
      segments come from are in their original order. */
  lemma {:induction false} SegmentsInOrder(parts: seq<Value>)
    ensures exists pos :: KeptInOrder(parts, pos)
    decreases |parts|
  {
    if parts == [] {
      assert KeptInOrder(parts, []);
    } else {
      var n := |parts| - 1;
      var init, x := parts[..n], parts[n];
      assert parts == init + [x];
      SegmentsInOrder(init);
      var pos0 :| KeptInOrder(init, pos0);
      SegmentsSnoc(init, x);
      var pos := pos0 + (if Truthy(x) then [n] else []);
      assert forall j :: 0 <= j < |pos0| ==> parts[pos0[j]] == init[pos0[j]];
      assert KeptInOrder(parts, pos);
    }
  }

  /** One segment per truthy component, in component order: as many segments
      as truthy components, each the string of one of them, at increasing
      positions. */
  lemma SegmentsOnePerTruthyComponent(parts: seq<Value>)
    ensures |Segments(parts)| == |TruthyIndices(parts)|
    ensures exists pos :: KeptInOrder(parts, pos)
  {
    SegmentsCount(parts);
    SegmentsInOrder(parts);
  }

  /** All seven components absent or empty: the address is "". */
  lemma AddressEmptyWhenAllAbsent(holderAddress: Node)
    requires forall i :: 0 <= i < 7 ==> !Truthy(Prop(Some(holderAddress), AddressFields[i]))
    ensures Address(holderAddress) == ""
  {
    SegmentsSpec(AddressParts(holderAddress));
  }

  /** When the components are strings, the address is the ", "-join of
      segments none of which is empty, one per non-empty component. */
  lemma AddressHasNoEmptySegment(holderAddress: Node)
    requires forall i :: 0 <= i < 7 ==>
      (Prop(Some(holderAddress), AddressFields[i]).None? || Prop(Some(holderAddress), AddressFields[i]).value.Text?)
    ensures var segments := Segments(AddressParts(holderAddress));
      && Address(holderAddress) == Join(segments, ", ")
      && forall j :: 0 <= j < |segments| ==> segments[j] != ""
  {
    SegmentsSpec(AddressParts(holderAddress));
  }

  lemma {:induction false} SegmentsOfTexts(texts: seq<string>)
    ensures Segments(seq(|texts|, i requires 0 <= i < |texts| => Some(Text(texts[i]))))
         == NonEmptyTexts(texts)
    decreases |texts|
  {
    if texts != [] {
      var parts := seq(|texts|, i requires 0 <= i < |texts| => Some(Text(texts[i])));
      assert parts[1..] == seq(|texts[1..]|, i requires 0 <= i < |texts[1..]| => Some(Text(texts[1..][i])));
      SegmentsOfTexts(texts[1..]);
    }
  }

  /** The non-empty strings of `texts`, in order. */
  function NonEmptyTexts(texts: seq<string>): seq<string> {
    if texts == [] then [] else (if texts[0] == "" then [] else [texts[0]]) + NonEmptyTexts(texts[1..])
  }

  /** With string components, the address joins the non-empty ones, in order. */
  lemma AddressOfTexts(holderAddress: Node, texts: seq<string>)
    requires |texts| == 7
    requires forall i :: 0 <= i < 7 ==> Prop(Some(holderAddress), AddressFields[i]) == Some(Text(texts[i]))
    ensures Address(holderAddress) == Join(NonEmptyTexts(texts), ", ")
  {
    SegmentsOfTexts(texts);
    assert AddressParts(holderAddress) == seq(|texts|, i requires 0 <= i < |texts| => Some(Text(texts[i])));
  }

  /** Empty components are dropped and the order is kept. */
  lemma AddressExample(holderAddress: Node)
    requires AddressParts(holderAddress) == [
      Some(Text("a")), Some(Text("")), Some(Text("b")), Some(Text("")),
      Some(Text("")), Some(Text("c")), Some(Text(""))]
    ensures Address(holderAddress) == "a, b, c"
  {
    var texts := ["a", "", "b", "", "", "c", ""];
    AddressOfTexts(holderAddress, texts);
    assert texts[1..][1..][1..][1..][1..] == ["c", ""];
    assert NonEmptyTexts(texts) == ["a", "b", "c"];
    var kept := ["a", "b", "c"];
    assert kept[1..][1..] == ["c"];
    assert Join(kept, ", ") == "a" + ", " + ("b" + ", " + "c");
  }

  // ---------------------------------------------------------------------------
  // Numbers and defaults
  // ---------------------------------------------------------------------------

  function DigitChar(d: nat): (c: char)
    requires d < 10
    ensures IsDigit(c) && c as int - '0' as int == d
  {
    ('0' as int + d) as char
  }

  /** The decimal rendering of a natural number, as `String(n)` gives it. */
  function Decimal(n: nat): (s: string)
    decreases n
  {
    if n < 10 then [DigitChar(n)] else Decimal(n / 10) + [DigitChar(n % 10)]
  }

  lemma {:induction false} DecimalRoundTrip(n: nat)
    ensures IsDigits(Decimal(n)) && DigitsValue(Decimal(n)) == n
    decreases n
  {
    if n >= 10 {
      DecimalRoundTrip(n / 10);
      var s := Decimal(n);
      assert s[..|s| - 1] == Decimal(n / 10);
    }
  }

  /** `Number` of the decimal rendering of a safe integer is that integer. */
  lemma NumberOfDecimal(n: nat)
    requires n <= MaxSafeInteger
    ensures NumberOf(Some(Text(Decimal(n)))) == Exact(n)
  {
    DecimalRoundTrip(n);
  }

  /** A non-empty string that is not all digits is not computed: it stays
      `Unmodelled`, JavaScript's `Number` of it, which may be NaN or 0. */
  lemma NumberOfNonDigits(s: string)
    requires s != "" && !IsDigits(s)
    ensures NumberOf(Some(Text(s))) == Unmodelled(Text(s))
  {
  }

  /** Each field of an account that is absent or `""` takes its default,
      whatever the other fields hold. */
  lemma AccountFieldDefaults(acc: Node)
    ensures !Truthy(Prop(Some(acc), BankNameElement)) ==> ExtractAccount(acc).bankName == ""
    ensures !Truthy(Prop(Some(acc), AccountNumberElement)) ==> ExtractAccount(acc).accountNumber == ""
    ensures !Truthy(Prop(Some(acc), AccountTypeElement)) ==> ExtractAccount(acc).accountType == ""
    ensures !Truthy(Prop(Some(acc), CurrentBalanceElement)) ==> ExtractAccount(acc).currentBalance == Exact(0)
    ensures !Truthy(Prop(Some(acc), AmountOverdueElement)) ==> ExtractAccount(acc).amountOverdue == Exact(0)
    ensures !Truthy(Prop(Some(acc), HolderAddressElement)) ==> ExtractAccount(acc).address == ""
  {
    AddressEmptyWhenAllAbsent(EmptyObject);
  }

  /** An account node without any of the fields read from it. */
  lemma AccountDefaults(acc: Node)
    requires acc == EmptyObject || acc.Text?
    ensures ExtractAccount(acc) == CreditAccount("", "", "", Exact(0), Exact(0), "")
  {
    AddressEmptyWhenAllAbsent(EmptyObject);
  }

  // ---------------------------------------------------------------------------
  // The whole record
  // ---------------------------------------------------------------------------

  /** The record depends on nothing but the `INProfileResponse` subtree. */
  lemma ExtractionDependsOnlyOnRoot(doc1: Value, doc2: Value)
    requires Prop(doc1, RootElement) == Prop(doc2, RootElement)
    ensures ExtractReport(doc1) == ExtractReport(doc2)
  {
  }
}
