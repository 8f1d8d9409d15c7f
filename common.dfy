/** Vocabulary shared by the whole model: optional values and results, the
    .NET exceptions thrown on the modelled paths, an XML element reduced to
    its attribute map, and the few base-library behaviours (bool formatting
    and parsing, Int32.CompareTo, string.IsNullOrEmpty) the core relies on. */
module Common {

  /** A reference that may be null. */
  datatype Option<+T> = None | Some(value: T)

  /** The value an operation returns, or the exception it throws. */
  datatype Result<+T> = Ok(value: T) | Err(error: Exception)

  /** What a void operation does: returns normally or throws. */
  datatype Outcome = Pass | Fail(error: Exception)

  /** The exceptions the modelled code throws, by .NET type. */
  datatype Exception =
    | ArgumentNull(paramName: string)  // ArgumentNullException
    | Argument                         // ArgumentException
    | InvalidOperation                 // InvalidOperationException
    | InvalidCast                      // an explicit cast `(T)x` on an object of another type
    | NullReference                    // a member called on null
    | Format                           // FormatException from bool.Parse

  /** An XML element as the map from attribute name to attribute value. */
  class XmlElement {
    var attributes: map<string, string>

    /** XmlElement.SetAttribute: adds the attribute or replaces its value. */
    method SetAttribute(name: string, value: string)
      modifies this
      ensures attributes == old(attributes)[name := value]
    {
      attributes := attributes[name := value];
    }
  }

  /** XmlElement.GetAttribute: the attribute's value, or "" when it is absent. */
  function GetAttribute(attributes: map<string, string>, name: string): string
  {
    if name in attributes then attributes[name] else ""
  }

  /** string.IsNullOrEmpty */
  predicate IsNullOrEmpty(s: Option<string>)
  {
    s.None? || s.value == ""
  }

  /** The text XmlElement.SetAttribute stores for a possibly-null value:
      a null value is read back as the empty string. */
  function NullToEmpty(s: Option<string>): (r: string)
    ensures IsNullOrEmpty(s) <==> r == ""
    ensures s.Some? ==> r == s.value
  {
    if s.None? then "" else s.value
  }

  /** Int32.CompareTo: the sign of a - b, as -1, 0 or 1. */
  function CompareInt(a: int, b: int): (r: int)
    ensures r == -1 <==> a < b
    ensures r == 0 <==> a == b
    ensures r == 1 <==> a > b
  {
    if a < b then -1 else if a > b then 1 else 0
  }

  /** The sign of a comparer's result. */
  function Sign(x: int): int
  {
    if x < 0 then -1 else if x > 0 then 1 else 0
  }

  const TrueString: string := "True"
  const FalseString: string := "False"

  /** bool.ToString(CultureInfo.InvariantCulture): Boolean.TrueString or
      Boolean.FalseString (the format provider is ignored). */
  function BoolToString(b: bool): string
  {
    if b then TrueString else FalseString
  }

  /** The characters bool.Parse trims from both ends: those for which
      Char.IsWhiteSpace holds, and the NUL character. */
  predicate IsWhiteSpaceOrNull(c: char)
  {
    || c == '\0'
    || ('\t' <= c <= '\r')
    || c == ' '
    || c == '\U{0085}'
    || c == '\U{00A0}'
    || c == '\U{1680}'
    || ('\U{2000}' <= c <= '\U{200A}')
    || c == '\U{2028}'
    || c == '\U{2029}'
    || c == '\U{202F}'
    || c == '\U{205F}'
    || c == '\U{3000}'
  }

  /** Every character of `w` is one that bool.Parse trims. */
  predicate AllWhite(w: string)
  {
    forall i :: 0 <= i < |w| ==> IsWhiteSpaceOrNull(w[i])
  }

  /** String.TrimStart of the characters bool.Parse trims: a suffix of `s`
      that does not start with one, after a run of them. */
  function TrimStart(s: string): (r: string)
    ensures |r| <= |s| && r == s[|s| - |r|..]
    ensures r == [] || !IsWhiteSpaceOrNull(r[0])
    ensures forall i :: 0 <= i < |s| - |r| ==> IsWhiteSpaceOrNull(s[i])
  {
    if |s| > 0 && IsWhiteSpaceOrNull(s[0]) then TrimStart(s[1..]) else s
  }

  /** String.TrimEnd of the same characters: a prefix of `s` that does not
      end with one, before a run of them. */
  function TrimEnd(s: string): (r: string)
    ensures |r| <= |s| && r == s[..|r|]
    ensures r == [] || !IsWhiteSpaceOrNull(r[|r| - 1])
    ensures forall i :: |r| <= i < |s| ==> IsWhiteSpaceOrNull(s[i])
  {
    if |s| > 0 && IsWhiteSpaceOrNull(s[|s| - 1]) then TrimEnd(s[..|s| - 1]) else s
  }

  /** What TrimStart removes is all trimmed characters. */
  lemma TrimStartRemovesWhite(s: string)
    ensures AllWhite(s[..|s| - |TrimStart(s)|])
  {
    var i := |s| - |TrimStart(s)|;
    forall k | 0 <= k < i ensures IsWhiteSpaceOrNull(s[..i][k]) {
      assert s[..i][k] == s[k];
    }
  }

  /** What TrimEnd removes is all trimmed characters. */
  lemma TrimEndRemovesWhite(u: string)
    ensures AllWhite(u[|TrimEnd(u)|..])
  {
    var n := |TrimEnd(u)|;
    forall k | 0 <= k < |u| - n ensures IsWhiteSpaceOrNull(u[n..][k]) {
      assert u[n..][k] == u[n + k];
    }
  }

  /** Upper-casing as StringComparison.OrdinalIgnoreCase does it for ASCII letters. */
  function AsciiUpper(c: char): char
  {
    if 'a' <= c <= 'z' then (c as int - 32) as char else c
  }

  /** String equality under StringComparison.OrdinalIgnoreCase, restricted to
      ASCII case folding. */
  predicate EqualsIgnoreCase(a: string, b: string)
  {
    |a| == |b| && forall i :: 0 <= i < |a| ==> AsciiUpper(a[i]) == AsciiUpper(b[i])
  }

  /** `s[i..j]` is the name of `b` in some letter case, and everything
      around it is white space or NUL. */
  predicate PaddedBool(s: string, i: int, j: int, b: bool)
  {
    0 <= i <= j <= |s| && AllWhite(s[..i]) && AllWhite(s[j..]) &&
    EqualsIgnoreCase(s[i..j], BoolToString(b))
  }

  /** The rest of `s` after position `i`, trimmed at the end, is the slice
      of `s` from `i`, followed only by trimmed characters. */
  lemma TrimEndOfSuffix(s: string, u: string, i: int)
    requires 0 <= i <= |s| && u == s[i..]
    ensures var j := i + |TrimEnd(u)|;
      j <= |s| && s[i..j] == TrimEnd(u) && AllWhite(s[j..])
  {
    var t := TrimEnd(u);
    var j := i + |t|;
    TrimEndRemovesWhite(u);
    assert s[i..j] == u[..|t|];
    assert s[j..] == u[|t|..];
  }

  /** bool.Parse: "True" or "False" in any letter case, after trimming
      white space and NUL characters from both ends; anything else is a
      FormatException. */
  function ParseBool(s: string): (r: Result<bool>)
    ensures r.Err? ==> r.error == Format
    ensures r.Ok? ==> EqualsIgnoreCase(TrimEnd(TrimStart(s)), BoolToString(r.value))
    ensures r.Err? ==> forall b :: !EqualsIgnoreCase(TrimEnd(TrimStart(s)), BoolToString(b))
  {
    var t := TrimEnd(TrimStart(s));
    if EqualsIgnoreCase(t, TrueString) then Ok(true)
    else if EqualsIgnoreCase(t, FalseString) then Ok(false)
    else Err(Format)
  }

  /** Whatever bool.Parse accepts is a boolean name, in some letter case,
      with only white space or NUL characters around it. */
  lemma ParseBoolOnlyAccepts(s: string, b: bool)
    requires ParseBool(s) == Ok(b)
    ensures exists i, j :: PaddedBool(s, i, j, b)
  {
    var u := TrimStart(s);
    var i := |s| - |u|;
    TrimStartRemovesWhite(s);
    TrimEndOfSuffix(s, u, i);
    assert PaddedBool(s, i, i + |TrimEnd(u)|, b);
  }

  /** Formatting a boolean and parsing the text gives the boolean back. */
  lemma ParseBoolToString(b: bool)
    ensures ParseBool(BoolToString(b)) == Ok(b)
  {
    var s := BoolToString(b);
    assert !IsWhiteSpaceOrNull(s[0]) && !IsWhiteSpaceOrNull(s[|s| - 1]);
    assert TrimStart(s) == s;
    assert TrimEnd(s) == s;
    assert !EqualsIgnoreCase(FalseString, TrueString);
  }

  /** Trimmed characters in front of text that starts with a kept one are
      all that TrimStart removes. */
  lemma {:induction false} TrimStartOfPadded(w: string, t: string)
    requires AllWhite(w)
    requires t == [] || !IsWhiteSpaceOrNull(t[0])
    ensures TrimStart(w + t) == t
  {
    if |w| == 0 {
      assert w + t == t;
    } else {
      assert (w + t)[1..] == w[1..] + t;
      TrimStartOfPadded(w[1..], t);
    }
  }

  /** Trimmed characters after text that ends with a kept one are all that
      TrimEnd removes. */
  lemma {:induction false} TrimEndOfPadded(t: string, w: string)
    requires AllWhite(w)
    requires t == [] || !IsWhiteSpaceOrNull(t[|t| - 1])
    ensures TrimEnd(t + w) == t
  {
    if |w| == 0 {
      assert t + w == t;
    } else {
      assert (t + w)[..|t + w| - 1] == t + w[..|w| - 1];
      TrimEndOfPadded(t, w[..|w| - 1]);
    }
  }

  /** A boolean name that differs only in letter case starts and ends with
      a letter, which is never trimmed. */
  lemma BoolNameEnds(t: string, b: bool)
    requires EqualsIgnoreCase(t, BoolToString(b))
    ensures |t| > 0 && !IsWhiteSpaceOrNull(t[0]) && !IsWhiteSpaceOrNull(t[|t| - 1])
  {
    var n := BoolToString(b);
    assert AsciiUpper(t[0]) == AsciiUpper(n[0]);
    assert AsciiUpper(t[|t| - 1]) == AsciiUpper(n[|n| - 1]);
  }

  /** bool.Parse accepts either boolean name in any letter case, with any
      white space or NUL characters before and after it. */
  lemma ParseBoolIgnoresSpaceAndCase(w1: string, t: string, w2: string, b: bool)
    requires AllWhite(w1) && AllWhite(w2)
    requires EqualsIgnoreCase(t, BoolToString(b))
    ensures ParseBool(w1 + t + w2) == Ok(b)
  {
    BoolNameEnds(t, b);
    assert (t + w2)[0] == t[0];
    assert w1 + t + w2 == w1 + (t + w2);
    TrimStartOfPadded(w1, t + w2);
    TrimEndOfPadded(t, w2);
    assert !(EqualsIgnoreCase(t, TrueString) && EqualsIgnoreCase(t, FalseString)) by {
      if EqualsIgnoreCase(t, TrueString) { assert AsciiUpper(t[0]) == 'T'; }
    }
  }

  /** bool.Parse throws a FormatException exactly for the texts that are not
      a boolean name, in some letter case, padded with white space or NUL
      characters. */
  lemma ParseBoolRejectsOtherText(s: string)
    ensures ParseBool(s) == Err(Format) <==> forall i, j, b :: !PaddedBool(s, i, j, b)
  {
    if exists i, j, b :: PaddedBool(s, i, j, b) {
      var i, j, b :| PaddedBool(s, i, j, b);
      assert s == s[..i] + s[i..j] + s[j..];
      ParseBoolIgnoresSpaceAndCase(s[..i], s[i..j], s[j..], b);
    } else if ParseBool(s).Ok? {
      ParseBoolOnlyAccepts(s, ParseBool(s).value);
    }
  }
}
