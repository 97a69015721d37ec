/** The doctor's QR scanner page: `extractCardNumber`, which recovers a health card number
    from scanned or typed text, and the guard in `handleScanWithCardNumber` that decides
    whether the scan request is sent. */
module ScanQrPage {
  import opened Wrappers
  import opened JsString
  import opened Types
  import HealthCardRoute

  // ---- JSON.parse, as an input ---------------------------------------------------------------

  /** What the JSON step of the extractor can see of `JSON.parse(raw)`: the string value of
      `cardNumber` when parsing succeeds, gives a truthy value and that value's `cardNumber`
      is a string; None when parsing throws or any of that fails. The parser itself is not
      modelled; it is a parameter of the extractor. */
  type JsonCardNumber = string -> Option<string>

  /** The white space JSON allows between tokens. */
  predicate IsJsonSpace(c: char) { c == ' ' || c == '\t' || c == '\n' || c == '\r' }

  function DropJsonSpace(t: string): (r: string)
    ensures |r| <= |t|
    ensures r == [] || !IsJsonSpace(r[0])
  {
    if t != [] && IsJsonSpace(t[0]) then DropJsonSpace(t[1..]) else t
  }

  /** Text whose first token opens an object: the only text from which `JSON.parse` can
      produce a value with a `cardNumber` property. */
  predicate OpensObject(t: string) {
    var u := DropJsonSpace(t);
    u != [] && u[0] == '{'
  }

  /** A parameter that behaves like `JSON.parse` in this one respect. */
  ghost predicate HonestParser(json: JsonCardNumber) {
    forall t :: json(t).Some? ==> OpensObject(t)
  }

  // ---- /cardNumber\s*[:=]\s*"?([A-Za-z0-9-_/]+)"?/i ----------------------------------------------

  /** The class `[A-Za-z0-9-_/]`. */
  predicate IsKvChar(c: char) { IsAlnum(c) || c == '-' || c == '_' || c == '/' }

  /** The first position at or after `j` that is not white space, or the end. */
  function SkipSpace(s: string, j: nat): (k: nat)
    requires j <= |s|
    ensures j <= k <= |s|
    ensures forall i :: j <= i < k ==> IsSpace(s[i])
    ensures k == |s| || !IsSpace(s[k])
    decreases |s| - j
  {
    if j < |s| && IsSpace(s[j]) then SkipSpace(s, j + 1) else j
  }

  /** The end of the longest run of `[A-Za-z0-9-_/]` starting at `j`. */
  function KvRunEnd(s: string, j: nat): (k: nat)
    requires j <= |s|
    ensures j <= k <= |s|
    ensures forall i :: j <= i < k ==> IsKvChar(s[i])
    ensures k == |s| || !IsKvChar(s[k])
    decreases |s| - j
  {
    if j < |s| && IsKvChar(s[j]) then KvRunEnd(s, j + 1) else j
  }

  /** `cardnumber`, in any case, starting at `i`. */
  predicate KeyAt(s: string, i: nat) {
    i + 10 <= |s| && EqualsIgnoringCase(s[i..i + 10], "cardnumber")
  }

  /** The captured group of a match of the key=value pattern that starts at `i`, if one does.
      The pattern backtracks into nothing: white space can match neither `[:=]`, `"` nor the
      class, and the class cannot match `"`, so each part takes the longest text it can. */
  function KvAt(s: string, i: nat): (r: Option<string>)
    ensures r.Some? ==> KeyAt(s, i) && r.value != [] && forall c :: c in r.value ==> IsKvChar(c)
  {
    if !KeyAt(s, i) then None
    else
      var j := SkipSpace(s, i + 10);
      if j == |s| || !(s[j] == ':' || s[j] == '=') then None
      else
        var k := SkipSpace(s, j + 1);
        var start := if k < |s| && s[k] == '"' then k + 1 else k;
        var end := KvRunEnd(s, start);
        if end == start then None else Some(s[start..end])
  }

  /** `raw.match(...)` without the `g` flag: the leftmost match at position `i` or later. */
  function FirstKv(s: string, i: nat): (r: Option<string>)
    requires i <= |s|
    ensures r.Some? ==> exists k :: i <= k < |s| && KvAt(s, k) == r
    ensures r.Some? ==> r.value != [] && forall j :: 0 <= j < |r.value| ==> IsKvChar(r.value[j])
    ensures r.None? ==> forall k :: i <= k < |s| ==> KvAt(s, k).None?
    decreases |s| - i
  {
    if i == |s| then None
    else if KvAt(s, i).Some? then KvAt(s, i)
    else FirstKv(s, i + 1)
  }

  // ---- /HC[A-Za-z0-9]+/i -------------------------------------------------------------------------

  /** The end of the longest run of `[A-Za-z0-9]` starting at `j`. */
  function AlnumEnd(s: string, j: nat): (k: nat)
    requires j <= |s|
    ensures j <= k <= |s|
    ensures forall i :: j <= i < k ==> IsAlnum(s[i])
    ensures k == |s| || !IsAlnum(s[k])
    decreases |s| - j
  {
    if j < |s| && IsAlnum(s[j]) then AlnumEnd(s, j + 1) else j
  }

  /** A run ending is determined by the two properties above. */
  lemma AlnumEndUnique(s: string, j: nat, e: nat)
    requires j <= e <= |s|
    requires forall i :: j <= i < e ==> IsAlnum(s[i])
    requires e == |s| || !IsAlnum(s[e])
    ensures AlnumEnd(s, j) == e
  {
  }

  /** White space is neither a letter nor a digit. */
  lemma SpaceIsNotAlnum(c: char)
    requires IsSpace(c)
    ensures !IsAlnum(c) && !IsKvChar(c) && Lower(c) == c && c != ':' && c != '=' && c != '"'
  {
  }

  lemma FirstHcIndexIs(s: string, a: nat)
    requires HcAt(s, a)
    requires forall k :: 0 <= k < a ==> !HcAt(s, k)
    ensures FirstHcIndex(s, 0) == Some(a)
  {
  }

  /** A match of the HC pattern can start at `i`. */
  predicate HcAt(s: string, i: nat) {
    i + 3 <= |s| && Lower(s[i]) == 'h' && Lower(s[i + 1]) == 'c' && IsAlnum(s[i + 2])
  }

  /** The leftmost start of an HC match at or after `i`. */
  function FirstHcIndex(s: string, i: nat): (r: Option<nat>)
    requires i <= |s|
    ensures r.Some? ==> i <= r.value < |s| && HcAt(s, r.value) && forall k :: i <= k < r.value ==> !HcAt(s, k)
    ensures r.None? ==> forall k :: i <= k < |s| ==> !HcAt(s, k)
    decreases |s| - i
  {
    if i == |s| then None
    else if HcAt(s, i) then Some(i)
    else FirstHcIndex(s, i + 1)
  }

  /** `raw.match(/HC[A-Za-z0-9]+/i)?.[0]`: the leftmost match, as long as the class allows. */
  function FirstHc(s: string): (r: Option<string>)
    ensures r.Some? ==> |r.value| >= 3 && Lower(r.value[0]) == 'h' && Lower(r.value[1]) == 'c'
    ensures r.Some? ==> forall j :: 2 <= j < |r.value| ==> IsAlnum(r.value[j])
  {
    match FirstHcIndex(s, 0)
    case None => None
    case Some(i) => Some(s[i..AlnumEnd(s, i + 2)])
  }

  /** `/^HC[A-Za-z0-9]+$/i.test(t)`. */
  predicate WholeHc(t: string) {
    |t| >= 3 && Lower(t[0]) == 'h' && Lower(t[1]) == 'c' && forall i :: 2 <= i < |t| ==> IsAlnum(t[i])
  }

  // ---- extractCardNumber ---------------------------------------------------------------------------

  /** The JSON attempt succeeds: a string `cardNumber` that is not blank once trimmed. */
  predicate JsonUsable(raw: string, json: JsonCardNumber) {
    json(raw).Some? && Trim(json(raw).value) != ""
  }

  /** The three attempts after the JSON one. */
  function AfterJson(raw: string): (r: Option<string>)
    ensures r.Some? ==> r.value != ""
  {
    match FirstKv(raw, 0)
    case Some(v) =>
      NoSpaceInRun(v);
      Some(Trim(v))
    case None =>
      match FirstHc(raw)
      case Some(m) =>
        NoSpaceInHc(m);
        Some(Trim(m))
      case None =>
        var trimmed := Trim(raw);
        if WholeHc(trimmed) then Some(trimmed) else None
  }

  /** No character of the key=value class is white space. */
  lemma KvCharNotSpace(c: char)
    requires IsKvChar(c)
    ensures !IsSpace(c)
  {
  }

  lemma NoSpaceInRun(v: string)
    requires forall j :: 0 <= j < |v| ==> IsKvChar(v[j])
    ensures Trim(v) == v
  {
    forall j | 0 <= j < |v| ensures !IsSpace(v[j]) {
      KvCharNotSpace(v[j]);
    }
    TrimNoSpace(v);
  }

  lemma NoSpaceInHc(m: string)
    requires |m| >= 3 && Lower(m[0]) == 'h' && Lower(m[1]) == 'c'
    requires forall j :: 2 <= j < |m| ==> IsAlnum(m[j])
    ensures Trim(m) == m
  {
    forall j | 0 <= j < |m| ensures !IsSpace(m[j]) {
      if j >= 2 {
        KvCharNotSpace(m[j]);
      }
    }
    TrimNoSpace(m);
  }

  /** `extractCardNumber(raw)`: the four ordered attempts. */
  function Extract(raw: string, json: JsonCardNumber): (r: Option<string>)
    ensures raw == "" ==> r == None
    ensures r.Some? ==> r.value != ""
  {
    if raw == "" then None
    else if JsonUsable(raw, json) then Some(Trim(json(raw).value))
    else AfterJson(raw)
  }

  /** A key=value capture is used as matched: it holds no white space. */
  lemma AfterJsonKv(raw: string)
    requires FirstKv(raw, 0).Some?
    ensures AfterJson(raw) == FirstKv(raw, 0)
  {
    NoSpaceInRun(FirstKv(raw, 0).value);
  }

  /** Without a key=value capture the first HC run is used as matched. */
  lemma AfterJsonHc(raw: string)
    requires FirstKv(raw, 0).None? && FirstHc(raw).Some?
    ensures AfterJson(raw) == FirstHc(raw)
  {
    var m := FirstHc(raw).value;
    NoSpaceInHc(m);
  }

  /** Which attempt decides: a usable JSON `cardNumber` wins, then the key=value capture,
      then the first HC run; the results are used as matched, since neither capture can hold
      white space. */
  lemma ExtractBranches(raw: string, json: JsonCardNumber)
    requires raw != ""
    ensures JsonUsable(raw, json) ==> Extract(raw, json) == Some(Trim(json(raw).value))
    ensures !JsonUsable(raw, json) && FirstKv(raw, 0).Some? ==> Extract(raw, json) == FirstKv(raw, 0)
    ensures !JsonUsable(raw, json) && FirstKv(raw, 0).None? && FirstHc(raw).Some? ==>
      Extract(raw, json) == FirstHc(raw)
  {
    if FirstKv(raw, 0).Some? {
      AfterJsonKv(raw);
    } else if FirstHc(raw).Some? {
      AfterJsonHc(raw);
    }
  }

  /** The HC search finds `m` at `a` when `m` is HC-shaped, nothing before `a` is an `h` and
      `m` is followed by the end or by a character outside the class. */
  lemma FirstHcFound(s: string, a: nat, m: string)
    requires a + |m| <= |s| && s[a..a + |m|] == m
    requires WholeHc(m)
    requires forall k :: 0 <= k < a ==> Lower(s[k]) != 'h'
    requires a + |m| == |s| || !IsAlnum(s[a + |m|])
    ensures FirstHc(s) == Some(m)
  {
    var e := a + |m|;
    assert s[a] == m[0] && s[a + 1] == m[1] && s[a + 2] == m[2];
    FirstHcIndexIs(s, a);
    forall k | a + 2 <= k < e ensures IsAlnum(s[k]) {
      assert s[k] == m[k - a];
    }
    AlnumEndUnique(s, a + 2, e);
  }

  /** Where `s.trim()` sits in `s`: after white space only, and followed by the end or by
      white space, which is outside the HC class. */
  lemma TrimmedInPlace(raw: string)
    ensures var a := |raw| - |TrimStart(raw)|;
      && a + |Trim(raw)| <= |raw| && raw[a..a + |Trim(raw)|] == Trim(raw)
      && (forall k :: 0 <= k < a ==> Lower(raw[k]) != 'h')
      && (a + |Trim(raw)| == |raw| || !IsAlnum(raw[a + |Trim(raw)|]))
  {
    TrimSlice(raw);
    var a := |raw| - |TrimStart(raw)|;
    forall k | 0 <= k < a ensures Lower(raw[k]) != 'h' {
      SpaceIsNotAlnum(raw[k]);
    }
    if a + |Trim(raw)| < |raw| {
      SpaceIsNotAlnum(raw[a + |Trim(raw)|]);
    }
  }

  /** The plain-text fallback never decides anything: whenever its test succeeds the HC search
      has already found the very same string. */
  lemma FallbackIsDead(raw: string)
    requires WholeHc(Trim(raw))
    ensures FirstHc(raw) == Some(Trim(raw))
  {
    TrimmedInPlace(raw);
    FirstHcFound(raw, |raw| - |TrimStart(raw)|, Trim(raw));
  }

  /** Position `j` holds no white space, and a `:` or `=` there comes right after a `"`. */
  predicate QuotedAt(s: string, j: nat)
    requires j < |s|
  {
    !IsSpace(s[j]) && ((s[j] == ':' || s[j] == '=') ==> j > 0 && s[j - 1] == '"')
  }

  predicate QuotedColons(s: string) {
    forall j :: 0 <= j < |s| ==> QuotedAt(s, j)
  }

  lemma QuotedColonsConcat(x: string, y: string)
    requires QuotedColons(x) && QuotedColons(y)
    ensures QuotedColons(x + y)
  {
    var s := x + y;
    forall j | 0 <= j < |s| ensures QuotedAt(s, j) {
      if j < |x| {
        assert QuotedAt(x, j);
        assert s[j] == x[j];
        if j > 0 { assert s[j - 1] == x[j - 1]; }
      } else {
        assert QuotedAt(y, j - |x|);
        assert s[j] == y[j - |x|];
        if j > |x| { assert s[j - 1] == y[j - 1 - |x|]; }
      }
    }
  }

  /** Text without white space in which every `:` or `=` follows a `"` has no key=value
      match: the key would have to end in `r` right before the separator. */
  lemma NoKvMatch(s: string)
    requires QuotedColons(s)
    ensures FirstKv(s, 0).None?
  {
    forall k | 0 <= k < |s| ensures KvAt(s, k).None? {
      NoKvAt(s, k);
    }
  }

  lemma NoKvAt(s: string, k: nat)
    requires k < |s| && QuotedColons(s)
    ensures KvAt(s, k).None?
  {
    if KeyAt(s, k) {
      assert Lower(s[k + 9]) == 'r' by {
        assert s[k..k + 10][9] == s[k + 9];
        assert Lower("cardnumber"[9]) == 'r';
      }
      if k + 10 < |s| {
        assert QuotedAt(s, k + 10);
        assert SkipSpace(s, k + 10) == k + 10;
        assert s[k + 10] != ':' && s[k + 10] != '=';
      }
    }
  }

  /** Letters and digits alone contain neither white space nor a separator. */
  lemma AlnumQuotedColons(s: string)
    requires forall i :: 0 <= i < |s| ==> IsAlnum(s[i])
    ensures QuotedColons(s)
  {
    forall j | 0 <= j < |s| ensures QuotedAt(s, j) {
      KvCharNotSpace(s[j]);
    }
  }

  /** The fixed parts of the QR payload: each `:` follows the closing quote of a key. */
  lemma CardKeyQuoted()
    ensures QuotedColons("{\"cardNumber\":\"")
  {
  }

  lemma PatientKeyQuoted()
    ensures QuotedColons("\",\"patientId\":\"")
  {
  }

  lemma CloseQuoted()
    ensures QuotedColons("\"}")
  {
  }

  /** With an alphanumeric patient id (an ObjectId's hexadecimal string), the QR payload has no
      key=value match: its `:` characters follow closing quotes and it has no white space. */
  lemma PayloadHasNoKv(cn: string, uid: Id)
    requires HealthCardRoute.CardNumberShape(cn)
    requires forall i :: 0 <= i < |uid| ==> IsAlnum(uid[i])
    ensures FirstKv(HealthCardRoute.QrPayload(cn, uid), 0).None?
  {
    HealthCardRoute.PayloadHoldsCardNumber(cn, uid);
    var A := "{\"cardNumber\":\"";
    var B := "\",\"patientId\":\"";
    var C := "\"}";
    CardKeyQuoted();
    PatientKeyQuoted();
    CloseQuoted();
    AlnumQuotedColons(cn);
    AlnumQuotedColons(uid);
    QuotedColonsConcat(A, cn);
    QuotedColonsConcat(A + cn, B);
    QuotedColonsConcat(A + cn + B, uid);
    QuotedColonsConcat(A + cn + B + uid, C);
    NoKvMatch(A + cn + B + uid + C);
  }

  /** An HC-shaped string placed after a prefix without any `h` and before a character
      outside the class is the first HC run of the whole. */
  lemma FirstHcAfterPrefix(pre: string, m: string, post: string)
    requires forall k :: 0 <= k < |pre| ==> Lower(pre[k]) != 'h'
    requires WholeHc(m)
    requires post == [] || !IsAlnum(post[0])
    ensures FirstHc(pre + m + post) == Some(m)
  {
    var s := pre + m + post;
    forall k | 0 <= k < |pre| ensures Lower(s[k]) != 'h' {
      assert s[k] == pre[k];
    }
    assert s[|pre|..|pre| + |m|] == m;
    if post != [] {
      assert s[|pre| + |m|] == post[0];
    }
    FirstHcFound(s, |pre|, m);
  }

  /** The text before the card number in the payload contains no `h` in either case. */
  lemma CardKeyHasNoH()
    ensures var pre := "{\"cardNumber\":\"";
      forall k :: 0 <= k < |pre| ==> Lower(pre[k]) != 'h'
  {
  }

  /** In the QR payload the first HC run is the card number itself: nothing before it contains
      an `h`, and the closing quote ends the run. */
  lemma PayloadFirstHc(cn: string, uid: Id)
    requires HealthCardRoute.CardNumberShape(cn)
    ensures FirstHc(HealthCardRoute.QrPayload(cn, uid)) == Some(cn)
  {
    HealthCardRoute.PayloadHoldsCardNumber(cn, uid);
    var pre := "{\"cardNumber\":\"";
    var post := "\",\"patientId\":\"" + HealthCardRoute.JsonEscape(uid) + "\"}";
    CardKeyHasNoH();
    assert post[0] == '"';
    assert pre + cn + post == HealthCardRoute.QrPayload(cn, uid);
    FirstHcAfterPrefix(pre, cn, post);
  }

  lemma CardNumberTrimmed(cn: string)
    requires HealthCardRoute.CardNumberShape(cn)
    ensures Trim(cn) == cn
  {
    forall j | 0 <= j < |cn| ensures !IsSpace(cn[j]) {
      KvCharNotSpace(cn[j]);
    }
    TrimNoSpace(cn);
  }

  /** Round trip: scanning the QR payload of an issued card yields its card number, whether
      `JSON.parse` reports that card number or fails altogether (the latter needs the patient
      id to be alphanumeric, as ObjectIds are). */
  lemma QrRoundTrip(cn: string, uid: Id, json: JsonCardNumber)
    requires HealthCardRoute.CardNumberShape(cn)
    requires var p := HealthCardRoute.QrPayload(cn, uid);
      json(p) == Some(cn) || (json(p) == None && forall i :: 0 <= i < |uid| ==> IsAlnum(uid[i]))
    ensures Extract(HealthCardRoute.QrPayload(cn, uid), json) == Some(cn)
  {
    var p := HealthCardRoute.QrPayload(cn, uid);
    CardNumberTrimmed(cn);
    if json(p) == None {
      PayloadHasNoKv(cn, uid);
      PayloadFirstHc(cn, uid);
    }
  }

  /** Any text of the form HC followed by letters and digits extracts to itself when the
      parser is honest: it is not JSON, has no key=value form and is its own HC run. */
  lemma WholeHcExtractsToItself(s: string, json: JsonCardNumber)
    requires HonestParser(json)
    requires WholeHc(s)
    ensures Extract(s, json) == Some(s)
  {
    assert !IsJsonSpace(s[0]);
    assert !OpensObject(s);
    assert json(s).None?;
    AlnumQuotedColons(s[2..]);
    assert QuotedColons(s);
    NoKvMatch(s);
    FirstHcFound(s, 0, s);
    TrimNoSpace(s);
  }

  // ---- handleScanWithCardNumber ----------------------------------------------------------------------

  datatype ScanAction =
    | ShowError(message: string)
    | PostScan(cardNumber: string)

  /** `handleScanWithCardNumber(raw)`: extracts again and either sets the error, sending
      nothing, or posts `{cardNumber}` to `/api/health-card/scan`. */
  function HandleScan(raw: string, json: JsonCardNumber): (a: ScanAction)
    ensures Extract(raw, json).None? ==> a == ShowError("Invalid health card number.")
    ensures Extract(raw, json).Some? ==> a == PostScan(Extract(raw, json).value) && a.cardNumber != ""
  {
    match Extract(raw, json)
    case None => ShowError("Invalid health card number.")
    case Some(cn) => PostScan(cn)
  }

  /** The camera callback: extracts from the decoded text and hands the result to
      `handleScanWithCardNumber`, which extracts a second time. */
  function OnDecoded(decoded: string, json: JsonCardNumber): ScanAction {
    match Extract(decoded, json)
    case None => ShowError("Invalid QR: couldn't find a health card number.")
    case Some(cn) => HandleScan(cn, json)
  }

  /** Scanning an issued card's QR code posts exactly its card number: the second extraction
      is a no-op on an HC-shaped value. */
  lemma ScanIssuedCard(cn: string, uid: Id, json: JsonCardNumber)
    requires HonestParser(json)
    requires HealthCardRoute.CardNumberShape(cn)
    requires var p := HealthCardRoute.QrPayload(cn, uid);
      json(p) == Some(cn) || (json(p) == None && forall i :: 0 <= i < |uid| ==> IsAlnum(uid[i]))
    ensures OnDecoded(HealthCardRoute.QrPayload(cn, uid), json) == PostScan(cn)
  {
    QrRoundTrip(cn, uid, json);
    assert WholeHc(cn);
    WholeHcExtractsToItself(cn, json);
  }

  lemma KeyValueExampleKey()
    ensures KeyAt("cardNumber=ABC", 0)
  {
    var s := "cardNumber=ABC";
    assert s[0..10] == "cardNumber";
    forall i | 0 <= i < 10 ensures Lower(s[0..10][i]) == Lower("cardnumber"[i]) {
    }
  }

  lemma KeyValueExampleMatch()
    ensures FirstKv("cardNumber=ABC", 0) == Some("ABC")
  {
    var s := "cardNumber=ABC";
    KeyValueExampleKey();
    assert SkipSpace(s, 10) == 10;
    assert SkipSpace(s, 11) == 11;
    assert KvRunEnd(s, 14) == 14;
    assert KvRunEnd(s, 11) == 14;
    assert s[11..14] == "ABC";
    assert KvAt(s, 0) == Some("ABC");
  }

  /** Text of the key=value form extracts to its value. */
  lemma KeyValueExample(json: JsonCardNumber)
    requires HonestParser(json)
    ensures Extract("cardNumber=ABC", json) == Some("ABC")
  {
    var s := "cardNumber=ABC";
    assert DropJsonSpace(s) == s;
    assert !OpensObject(s);
    assert json(s).None?;
    assert !JsonUsable(s, json);
    KeyValueExampleMatch();
    NoSpaceInRun("ABC");
    assert AfterJson(s) == Some("ABC");
  }

  /** Three letters without the HC prefix extract to nothing. */
  lemma PlainValueRejected(json: JsonCardNumber)
    requires HonestParser(json)
    ensures Extract("ABC", json) == None
  {
    var t := "ABC";
    assert DropJsonSpace(t) == t;
    AlnumQuotedColons(t);
    NoKvMatch(t);
    assert !HcAt(t, 0);
    assert FirstHcIndex(t, 0) == None;
    TrimNoSpace(t);
  }

  /** The second extraction is not a no-op on every first result: a key=value capture that
      is not HC-shaped does not survive it, so such a scan ends in an error and no request. */
  lemma KeyValueCaptureLostOnReExtraction(json: JsonCardNumber)
    requires HonestParser(json)
    ensures OnDecoded("cardNumber=ABC", json) == ShowError("Invalid health card number.")
  {
    KeyValueExample(json);
    PlainValueRejected(json);
  }
}
