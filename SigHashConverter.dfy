/**
 * The command-line converter that reads a signature-and-hash algorithm pair
 * written SIG-HASH, with the constant names of the signature and hash
 * algorithms of section 7.4.1.4.1 of RFC 5246.
 */
module SigHashConverter {
  import opened JavaLang

  datatype SignatureAlgorithm = ANONYMOUS | RSA | DSA | ECDSA

  datatype HashAlgorithm = NONE | MD5 | SHA1 | SHA224 | SHA256 | SHA384 | SHA512

  datatype SignatureAndHashAlgorithm = SignatureAndHashAlgorithm(signature: SignatureAlgorithm, hash: HashAlgorithm)

  /** JCommander's ParameterException. */
  datatype ParameterException = ParameterException(message: string)

  // ---------------------------------------------------------------------------
  // Enum constant names and valueOf
  // ---------------------------------------------------------------------------

  function SignatureName(a: SignatureAlgorithm): (name: string)
    ensures |name| > 0 && '-' !in name
  {
    match a
    case ANONYMOUS => "ANONYMOUS"
    case RSA => "RSA"
    case DSA => "DSA"
    case ECDSA => "ECDSA"
  }

  function HashName(a: HashAlgorithm): (name: string)
    ensures |name| > 0 && '-' !in name
  {
    match a
    case NONE => "NONE"
    case MD5 => "MD5"
    case SHA1 => "SHA1"
    case SHA224 => "SHA224"
    case SHA256 => "SHA256"
    case SHA384 => "SHA384"
    case SHA512 => "SHA512"
  }

  /** SignatureAlgorithm.valueOf: the constant with exactly this name, or
      None where Java throws IllegalArgumentException. */
  function SignatureValueOf(name: string): (r: Option<SignatureAlgorithm>)
    ensures r.Some? ==> SignatureName(r.value) == name
    ensures r.None? ==> forall a :: SignatureName(a) != name
  {
    if name == "ANONYMOUS" then Some(ANONYMOUS)
    else if name == "RSA" then Some(RSA)
    else if name == "DSA" then Some(DSA)
    else if name == "ECDSA" then Some(ECDSA)
    else None
  }

  function HashValueOf(name: string): (r: Option<HashAlgorithm>)
    ensures r.Some? ==> HashName(r.value) == name
    ensures r.None? ==> forall a :: HashName(a) != name
  {
    if name == "NONE" then Some(NONE)
    else if name == "MD5" then Some(MD5)
    else if name == "SHA1" then Some(SHA1)
    else if name == "SHA224" then Some(SHA224)
    else if name == "SHA256" then Some(SHA256)
    else if name == "SHA384" then Some(SHA384)
    else if name == "SHA512" then Some(SHA512)
    else None
  }

  /** valueOf inverts the constant's name. */
  lemma ValueOfNameRoundTrip(s: SignatureAlgorithm, h: HashAlgorithm)
    ensures SignatureValueOf(SignatureName(s)) == Some(s)
    ensures HashValueOf(HashName(h)) == Some(h)
  {
    match s
    case ANONYMOUS => case RSA => case DSA => case ECDSA =>
  }

  // ---------------------------------------------------------------------------
  // String.split("-")
  // ---------------------------------------------------------------------------

  /** The pieces between the dashes of s, empty pieces included. */
  function Fields(s: string): (parts: seq<string>)
    ensures |parts| >= 1
  {
    if s == [] then [""]
    else
      var init := Fields(s[..|s| - 1]);
      var c := s[|s| - 1];
      if c == '-' then init + [""]
      else init[..|init| - 1] + [init[|init| - 1] + [c]]
  }

  /** A dash at the end adds an empty piece. */
  lemma FieldsAppendDash(s: string)
    ensures Fields(s + "-") == Fields(s) + [""]
  {
    assert (s + "-")[..|s|] == s;
  }

  /** The pieces put back together with dashes between them. */
  function Join(parts: seq<string>): string
    requires |parts| >= 1
  {
    if |parts| == 1 then parts[0] else Join(parts[..|parts| - 1]) + "-" + parts[|parts| - 1]
  }

  /** Joining after the last piece grew by c is joining, then c. */
  lemma JoinExtendLast(parts: seq<string>, c: char)
    requires |parts| >= 1
    ensures Join(parts[..|parts| - 1] + [parts[|parts| - 1] + [c]]) == Join(parts) + [c]
  {
    var q := parts[..|parts| - 1] + [parts[|parts| - 1] + [c]];
    if |parts| > 1 {
      assert q[..|q| - 1] == parts[..|parts| - 1];
      assert Join(q) == Join(parts[..|parts| - 1]) + "-" + (parts[|parts| - 1] + [c]);
    }
  }

  /** Joining with one more, empty, piece adds a dash. */
  lemma JoinAppendEmpty(parts: seq<string>)
    requires |parts| >= 1
    ensures Join(parts + [""]) == Join(parts) + "-"
  {
    assert (parts + [""])[..|parts|] == parts;
  }

  /** Splitting and joining again gives the text back. */
  lemma {:induction false} JoinFields(s: string)
    ensures Join(Fields(s)) == s
  {
    if s != [] {
      var t := s[..|s| - 1];
      var c := s[|s| - 1];
      JoinFields(t);
      assert s == t + [c];
      if c == '-' {
        JoinAppendEmpty(Fields(t));
      } else {
        JoinExtendLast(Fields(t), c);
      }
    }
  }

  /** Drops the empty pieces at the end, as String.split does. */
  function DropTrailingEmpty(parts: seq<string>): (r: seq<string>)
    ensures |r| <= |parts| && r == parts[..|r|]
    ensures |r| > 0 ==> r[|r| - 1] != ""
    ensures forall k :: |r| <= k < |parts| ==> parts[k] == ""
  {
    if parts == [] then []
    else if parts[|parts| - 1] == "" then DropTrailingEmpty(parts[..|parts| - 1])
    else parts
  }

  /** String.split("-"): a text without a dash is its own only piece;
      otherwise the pieces between dashes, a leading empty piece kept and the
      trailing empty pieces dropped. */
  function JavaSplit(s: string): seq<string> {
    if '-' !in s then [s] else DropTrailingEmpty(Fields(s))
  }

  // ---------------------------------------------------------------------------
  // The converter
  // ---------------------------------------------------------------------------

  function ShapeMessage(value: string): string {
    "Value " + value + " cannot be converted to a Signature and Hash algorithm."
  }

  /** The message of the exception thrown from the catch block. */
  function UnknownNameMessage(value: string): string {
    ShapeMessage(value) + " "
  }

  /** convert: exactly two pieces, the first a signature algorithm name and the
      second a hash algorithm name. */
  function Convert(value: string): (r: Result<SignatureAndHashAlgorithm, ParameterException>)
    ensures |JavaSplit(value)| != 2 ==> r == Failure(ParameterException(ShapeMessage(value)))
    ensures |JavaSplit(value)| == 2 && r.Failure? ==>
      r.error == ParameterException(UnknownNameMessage(value)) &&
      (SignatureValueOf(JavaSplit(value)[0]).None? || HashValueOf(JavaSplit(value)[1]).None?)
    ensures r.Success? ==>
      JavaSplit(value) == [SignatureName(r.value.signature), HashName(r.value.hash)]
  {
    var split := JavaSplit(value);
    if |split| != 2 then Failure(ParameterException(ShapeMessage(value)))
    else
      var signature := SignatureValueOf(split[0]);
      var hash := HashValueOf(split[1]);
      if signature.None? || hash.None? then Failure(ParameterException(UnknownNameMessage(value)))
      else Success(SignatureAndHashAlgorithm(signature.value, hash.value))
  }

  // ---------------------------------------------------------------------------
  // What the converter accepts
  // ---------------------------------------------------------------------------

  function Dashes(k: nat): string {
    if k == 0 then "" else Dashes(k - 1) + "-"
  }

  function Empties(k: nat): seq<string> {
    if k == 0 then [] else Empties(k - 1) + [""]
  }

  /** A character other than a dash extends the last piece. */
  lemma FieldsAppendChar(s: string, c: char)
    requires c != '-'
    ensures var parts := Fields(s);
      Fields(s + [c]) == parts[..|parts| - 1] + [parts[|parts| - 1] + [c]]
  {
    assert (s + [c])[..|s|] == s;
  }

  /** Extending the last piece by y and then by c extends it by y + [c]. */
  lemma ExtendLastTwice(parts: seq<string>, y: string, c: char)
    requires |parts| >= 1
    ensures var init := parts[..|parts| - 1] + [parts[|parts| - 1] + y];
      init[..|init| - 1] + [init[|init| - 1] + [c]] == parts[..|parts| - 1] + [parts[|parts| - 1] + (y + [c])]
  {
    var init := parts[..|parts| - 1] + [parts[|parts| - 1] + y];
    assert init[..|init| - 1] == parts[..|parts| - 1];
    assert (parts[|parts| - 1] + y) + [c] == parts[|parts| - 1] + (y + [c]);
  }

  /** Extending the last piece by nothing leaves the pieces as they are. */
  lemma ExtendLastByNothing(parts: seq<string>)
    requires |parts| >= 1
    ensures parts[..|parts| - 1] + [parts[|parts| - 1] + ""] == parts
  {
    assert parts[|parts| - 1] + "" == parts[|parts| - 1];
    assert parts[..|parts| - 1] + [parts[|parts| - 1]] == parts;
  }

  /** One more character without a dash after text that extended the last
      piece extends it further. */
  lemma FieldsAppendPlainStep(s: string, y: string, c: char)
    requires c != '-'
    requires var parts := Fields(s);
      Fields(s + y) == parts[..|parts| - 1] + [parts[|parts| - 1] + y]
    ensures var parts := Fields(s);
      Fields(s + (y + [c])) == parts[..|parts| - 1] + [parts[|parts| - 1] + (y + [c])]
  {
    FieldsAppendChar(s + y, c);
    ExtendLastTwice(Fields(s), y, c);
    assert s + (y + [c]) == (s + y) + [c];
  }

  /** Appending text without a dash extends the last piece. */
  lemma {:induction false} FieldsAppendPlain(s: string, x: string)
    requires '-' !in x
    ensures var parts := Fields(s);
      Fields(s + x) == parts[..|parts| - 1] + [parts[|parts| - 1] + x]
  {
    if x == [] {
      assert s + x == s;
      ExtendLastByNothing(Fields(s));
    } else {
      var y := x[..|x| - 1];
      var c := x[|x| - 1];
      assert x == y + [c];
      assert '-' !in y;
      FieldsAppendPlain(s, y);
      FieldsAppendPlainStep(s, y, c);
    }
  }

  /** s followed by k > 0 dashes is s followed by k - 1 dashes, then a dash. */
  lemma DashesSnoc(s: string, k: nat)
    requires k > 0
    ensures var t := s + Dashes(k);
      |t| > 0 && t[..|t| - 1] == s + Dashes(k - 1) && t[|t| - 1] == '-'
  {
    assert s + Dashes(k) == (s + Dashes(k - 1)) + "-";
  }

  lemma AppendAssoc<T>(a: seq<T>, b: seq<T>, c: seq<T>)
    ensures (a + b) + c == a + (b + c)
  {
  }

  /** Each trailing dash adds one empty piece. */
  lemma {:induction false} FieldsAppendDashes(s: string, k: nat)
    ensures Fields(s + Dashes(k)) == Fields(s) + Empties(k)
  {
    if k == 0 {
      assert s + Dashes(0) == s;
    } else {
      FieldsAppendDashes(s, k - 1);
      DashesSnoc(s, k);
      AppendAssoc(Fields(s), Empties(k - 1), [""]);
    }
  }

  /** Text without a dash is a single piece. */
  lemma FieldsOfPlain(a: string)
    requires '-' !in a
    ensures Fields(a) == [a]
  {
    FieldsAppendPlain("", a);
    assert "" + a == a;
  }

  /** The pieces of SIG-HASH followed by k dashes. */
  lemma FieldsOfPair(a: string, b: string, k: nat)
    requires '-' !in a && '-' !in b
    ensures Fields(a + "-" + b + Dashes(k)) == [a, b] + Empties(k)
  {
    FieldsOfPlain(a);
    FieldsAppendDash(a);
    assert [a] + [""] == [a, ""];
    FieldsAppendPlain(a + "-", b);
    assert "" + b == b;
    assert [a, ""][..1] + [b] == [a, b];
    FieldsAppendDashes(a + "-" + b, k);
  }

  lemma {:induction false} DropEmpties(p: seq<string>, k: nat)
    requires |p| > 0 && p[|p| - 1] != ""
    ensures DropTrailingEmpty(p + Empties(k)) == p
  {
    if k == 0 {
      assert p + Empties(0) == p;
    } else {
      DropEmpties(p, k - 1);
      assert (p + Empties(k))[..|p + Empties(k)| - 1] == p + Empties(k - 1);
    }
  }

  /** p followed by k > 0 empty pieces is p followed by k - 1 of them, then one. */
  lemma EmptiesSnoc(p: seq<string>, k: nat)
    requires k > 0
    ensures var q := p + Empties(k);
      |q| > 0 && q[..|q| - 1] == p + Empties(k - 1) && q[|q| - 1] == ""
  {
    assert p + Empties(k) == (p + Empties(k - 1)) + [""];
  }

  /** Joining pieces followed by k empty ones adds k dashes. */
  lemma {:induction false} JoinEmpties(p: seq<string>, k: nat)
    requires |p| >= 1
    ensures Join(p + Empties(k)) == Join(p) + Dashes(k)
  {
    if k == 0 {
      assert p + Empties(0) == p;
    } else {
      JoinEmpties(p, k - 1);
      EmptiesSnoc(p, k);
      var j := Join(p + Empties(k - 1));
      assert Join(p + Empties(k)) == j + "-" + "";
      assert j + "-" + "" == j + "-";
      AppendAssoc(Join(p), Dashes(k - 1), "-");
    }
  }

  /** The pieces are the kept ones followed by the dropped empty ones. */
  lemma SplitThenEmpties(parts: seq<string>)
    ensures parts == DropTrailingEmpty(parts) + Empties(|parts| - |DropTrailingEmpty(parts)|)
  {
    var r := DropTrailingEmpty(parts);
    var k := |parts| - |r|;
    EmptiesAreEmpty(k);
    assert parts == r + parts[|r|..];
  }

  lemma {:induction false} EmptiesAreEmpty(k: nat)
    ensures |Empties(k)| == k && forall i :: 0 <= i < k ==> Empties(k)[i] == ""
  {
    if k > 0 {
      EmptiesAreEmpty(k - 1);
    }
  }

  /** Round trip: the names of a pair, joined by a dash, convert back to the pair. */
  lemma ConvertRoundTrip(s: SignatureAlgorithm, h: HashAlgorithm)
    ensures Convert(SignatureName(s) + "-" + HashName(h)) == Success(SignatureAndHashAlgorithm(s, h))
  {
    AcceptsPairWithTrailingDashes(s, h, 0);
    assert SignatureName(s) + "-" + HashName(h) + Dashes(0) == SignatureName(s) + "-" + HashName(h);
  }

  /** Every input of the form SIG-HASH followed by dashes converts to that pair. */
  lemma AcceptsPairWithTrailingDashes(s: SignatureAlgorithm, h: HashAlgorithm, k: nat)
    ensures Convert(SignatureName(s) + "-" + HashName(h) + Dashes(k)) == Success(SignatureAndHashAlgorithm(s, h))
  {
    SplitOfPair(SignatureName(s), HashName(h), k);
    ValueOfNameRoundTrip(s, h);
  }

  /** SIG-HASH followed by dashes splits into its two names. */
  lemma SplitOfPair(a: string, b: string, k: nat)
    requires '-' !in a && '-' !in b && b != ""
    ensures JavaSplit(a + "-" + b + Dashes(k)) == [a, b]
  {
    FieldsOfPair(a, b, k);
    DropEmpties([a, b], k);
    assert (a + "-" + b + Dashes(k))[|a|] == '-';
  }

  /** Nothing else converts to the pair: an accepted input is SIG-HASH
      followed by the trailing dashes split dropped. */
  lemma AcceptedInputHasPairForm(value: string, s: SignatureAlgorithm, h: HashAlgorithm)
    requires Convert(value) == Success(SignatureAndHashAlgorithm(s, h))
    ensures exists k: nat :: value == SignatureName(s) + "-" + HashName(h) + Dashes(k)
  {
    var parts := Fields(value);
    var kept := [SignatureName(s), HashName(h)];
    assert '-' in value;
    assert DropTrailingEmpty(parts) == kept;
    var k := |parts| - 2;
    SplitThenEmpties(parts);
    JoinFields(value);
    JoinEmpties(kept, k);
    assert Join(kept) == SignatureName(s) + "-" + HashName(h);
    assert value == SignatureName(s) + "-" + HashName(h) + Dashes(k);
  }

  /** convert accepts exactly a signature name, a dash, a hash name and any
      number of trailing dashes (which split drops), and returns that pair. */
  lemma ConvertAccepts(value: string, s: SignatureAlgorithm, h: HashAlgorithm)
    ensures Convert(value) == Success(SignatureAndHashAlgorithm(s, h)) <==>
      exists k: nat :: value == SignatureName(s) + "-" + HashName(h) + Dashes(k)
  {
    if exists k: nat :: value == SignatureName(s) + "-" + HashName(h) + Dashes(k) {
      var k: nat :| value == SignatureName(s) + "-" + HashName(h) + Dashes(k);
      AcceptsPairWithTrailingDashes(s, h, k);
    }
    if Convert(value) == Success(SignatureAndHashAlgorithm(s, h)) {
      AcceptedInputHasPairForm(value, s, h);
    }
  }

  /** A trailing dash is dropped by split: NAME- is a single piece. */
  lemma TrailingDashDropped(a: string)
    requires a != "" && '-' !in a
    ensures JavaSplit(a + "-") == [a]
  {
    FieldsOfPlain(a);
    FieldsAppendDash(a);
    assert [a] + [""] == [a, ""];
    assert (a + "-")[|a|] == '-';
    assert [a, ""][..1] == [a];
    assert DropTrailingEmpty([a]) == [a];
  }

  /** A leading dash gives an empty first piece: -NAME is ["", NAME]. */
  lemma LeadingDashKept(b: string)
    requires b != "" && '-' !in b
    ensures JavaSplit("-" + b) == ["", b]
  {
    FieldsAppendDash("");
    assert "" + "-" == "-";
    FieldsAppendPlain("-", b);
    assert "" + b == b;
    assert ("-" + b)[0] == '-';
  }

  /** Three pieces stay three. */
  lemma ThreePiecesKept(a: string, b: string, c: string)
    requires '-' !in a && '-' !in b && '-' !in c && c != ""
    ensures JavaSplit(a + "-" + b + "-" + c) == [a, b, c]
  {
    FieldsOfPair(a, b, 1);
    assert a + "-" + b + Dashes(1) == a + "-" + b + "-";
    assert [a, b] + Empties(1) == [a, b, ""];
    FieldsAppendPlain(a + "-" + b + "-", c);
    assert "" + c == c;
    assert (a + "-" + b + "-" + c)[|a|] == '-';
  }

  lemma RejectsMissingHash()
    ensures Convert("RSA-") == Failure(ParameterException(ShapeMessage("RSA-")))
  {
    TrailingDashDropped("RSA");
    assert "RSA" + "-" == "RSA-";
  }

  lemma RejectsMissingSignature()
    ensures Convert("-SHA1") == Failure(ParameterException(UnknownNameMessage("-SHA1")))
  {
    LeadingDashKept("SHA1");
    assert "-" + "SHA1" == "-SHA1";
  }

  lemma RejectsThreePieces()
    ensures Convert("RSA-SHA1-MD5") == Failure(ParameterException(ShapeMessage("RSA-SHA1-MD5")))
  {
    ThreePiecesKept("RSA", "SHA1", "MD5");
    assert "RSA" + "-" + "SHA1" + "-" + "MD5" == "RSA-SHA1-MD5";
  }
}
