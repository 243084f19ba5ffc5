/** Header normalisation: every column label is stripped of surrounding
    whitespace, then each space in it becomes an underscore, so that the
    later stages can refer to "Unit_Cost", "Lead_Time" and so on. */
module Headers {

  /** The characters Python's `str.strip()` removes (`str.isspace`). */
  predicate IsWhitespace(c: char) {
    || '\t' <= c <= '\r'
    || '\U{1C}' <= c <= ' '
    || c == '\U{85}' || c == '\U{A0}' || c == '\U{1680}'
    || '\U{2000}' <= c <= '\U{200A}'
    || c == '\U{2028}' || c == '\U{2029}' || c == '\U{202F}' || c == '\U{205F}' || c == '\U{3000}'
  }

  /** The input without its whitespace prefix: a suffix of it that does not
      start with whitespace. */
  function TrimStart(s: string): (r: string)
    ensures |r| <= |s|
    ensures r == [] || !IsWhitespace(r[0])
  {
    if s != [] && IsWhitespace(s[0]) then TrimStart(s[1..]) else s
  }

  /** The input without its whitespace suffix: a prefix of it that does not
      end with whitespace. */
  function TrimEnd(s: string): (r: string)
    ensures |r| <= |s| && (r != [] ==> r[0] == s[0])
    ensures r == [] || !IsWhitespace(r[|r| - 1])
  {
    if s != [] && IsWhitespace(s[|s| - 1]) then TrimEnd(s[..|s| - 1]) else s
  }

  /** `str.strip()` with no argument. */
  function Strip(s: string): (r: string)
    ensures |r| <= |s| && Trimmed(r)
    ensures Trimmed(s) ==> r == s
  {
    TrimEnd(TrimStart(s))
  }

  /** `str.replace(" ", "_")`. */
  function Underscores(s: string): (r: string)
    ensures |r| == |s|
  {
    if s == [] then [] else [if s[0] == ' ' then '_' else s[0]] + Underscores(s[1..])
  }

  /** One label of line 16: no space left in it and no whitespace at
      either end. */
  function NormalizeHeader(name: string): (r: string)
    ensures ' ' !in r && Trimmed(r)
  {
    UnderscoresAt(Strip(name));
    Underscores(Strip(name))
  }

  /** `df.columns.str.strip().str.replace(" ", "_")`: every label normalised,
      in place and in order. */
  function NormalizeColumns(columns: seq<string>): (r: seq<string>)
    ensures |r| == |columns|
    ensures forall i | 0 <= i < |columns| :: r[i] == NormalizeHeader(columns[i])
  {
    seq(|columns|, i requires 0 <= i < |columns| => NormalizeHeader(columns[i]))
  }

  /** No whitespace at either end. */
  predicate Trimmed(s: string) {
    s == [] || (!IsWhitespace(s[0]) && !IsWhitespace(s[|s| - 1]))
  }

  lemma {:induction false} TrimStartCut(s: string) returns (a: nat)
    ensures a <= |s| && TrimStart(s) == s[a..]
    ensures forall i | 0 <= i < a :: IsWhitespace(s[i])
    ensures a < |s| ==> !IsWhitespace(s[a])
  {
    if s != [] && IsWhitespace(s[0]) {
      var a' := TrimStartCut(s[1..]);
      a := a' + 1;
      assert s[1..][a'..] == s[a..];
    } else {
      a := 0;
    }
  }

  lemma {:induction false} TrimEndCut(s: string) returns (b: nat)
    ensures b <= |s| && TrimEnd(s) == s[..b]
    ensures forall i | b <= i < |s| :: IsWhitespace(s[i])
    ensures b > 0 ==> !IsWhitespace(s[b - 1])
  {
    if s != [] && IsWhitespace(s[|s| - 1]) {
      var init := s[..|s| - 1];
      b := TrimEndCut(init);
      assert init[..b] == s[..b];
      assert forall i | b <= i < |init| :: init[i] == s[i];
    } else {
      b := |s|;
    }
  }

  /** `Strip` removes the longest whitespace prefix and suffix and nothing
      else: the result is the slice `s[a..b]` of the input, everything
      outside it is whitespace, and it neither starts nor ends with
      whitespace. */
  lemma StripCut(s: string) returns (a: nat, b: nat)
    ensures a <= b <= |s| && Strip(s) == s[a..b]
    ensures forall i | 0 <= i < a :: IsWhitespace(s[i])
    ensures forall i | b <= i < |s| :: IsWhitespace(s[i])
    ensures Trimmed(Strip(s))
  {
    a := TrimStartCut(s);
    var t := s[a..];
    var b' := TrimEndCut(t);
    b := a + b';
    assert t[..b'] == s[a..b];
    assert forall i | b' <= i < |t| :: t[i] == s[a + i];
    if b' > 0 {
      assert !IsWhitespace(t[0]) by {
        if a < |s| { assert t[0] == s[a]; }
      }
    }
  }

  /** The replacement keeps the length and changes exactly the spaces. */
  lemma {:induction false} UnderscoresAt(s: string)
    ensures |Underscores(s)| == |s|
    ensures forall i | 0 <= i < |s| :: Underscores(s)[i] == if s[i] == ' ' then '_' else s[i]
  {
    if s != [] {
      UnderscoresAt(s[1..]);
    }
  }

  /** A normalised label is the stripped label with each space turned into
      an underscore and every other character kept; it has no space left
      and no whitespace at either end. */
  lemma NormalizeHeaderShape(name: string)
    ensures |NormalizeHeader(name)| == |Strip(name)|
    ensures forall i | 0 <= i < |Strip(name)| ::
      NormalizeHeader(name)[i] == if Strip(name)[i] == ' ' then '_' else Strip(name)[i]
    ensures ' ' !in NormalizeHeader(name)
    ensures Trimmed(NormalizeHeader(name))
  {
    var t := Strip(name);
    var _, _ := StripCut(name);
    UnderscoresAt(t);
    var r := NormalizeHeader(name);
    assert forall i | 0 <= i < |r| :: r[i] != ' ';
  }

  /** A label with no space and no surrounding whitespace is left as it is. */
  lemma NormalizeHeaderKeeps(name: string)
    requires ' ' !in name && Trimmed(name)
    ensures NormalizeHeader(name) == name
  {
    var a, b := StripCut(name);
    assert a == 0 && b == |name|;
    UnderscoresAt(name);
  }

  /** Normalising twice is normalising once. */
  lemma NormalizeHeaderIdempotent(name: string)
    ensures NormalizeHeader(NormalizeHeader(name)) == NormalizeHeader(name)
  {
    NormalizeHeaderShape(name);
    NormalizeHeaderKeeps(NormalizeHeader(name));
  }

  /** Stripping removes a leading space and a trailing tab. */
  lemma StripExample()
    ensures Strip(" Unit Cost\t") == "Unit Cost"
  {
    assert TrimStart(" Unit Cost\t") == "Unit Cost\t";
  }

  /** The inner space becomes an underscore. */
  lemma UnderscoresExample()
    ensures Underscores("Unit Cost") == "Unit_Cost"
  {
    UnderscoresAt("Unit Cost");
  }

  /** The header of a spreadsheet export, " Unit Cost\t", is the column the
      cleaning step asks for. */
  lemma NormalizeHeaderExample()
    ensures NormalizeHeader(" Unit Cost\t") == "Unit_Cost"
  {
    StripExample();
    UnderscoresExample();
  }
}
