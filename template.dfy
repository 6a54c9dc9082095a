/** The rename pattern: a `str.format` template restricted to the three
    keyword placeholders `{index}`, `{name}` and `{ext}`, with `{{` and `}}`
    standing for literal braces. */
module Template {
  import opened Results

  datatype Token = Lit(c: char) | IndexField | NameField | ExtField

  /** Why `str.format` rejects a pattern. */
  datatype FormatError =
    | SingleClose           // a '}' that is not part of "}}"
    | UnclosedField         // a '{' with no '}' after it
    | UnknownField(field: string)  // any other replacement field

  function DigitChar(d: nat): (c: char)
    requires d < 10
    ensures '0' <= c <= '9' && (c as int) - ('0' as int) == d
  {
    (('0' as int) + d) as char
  }

  predicate IsDigits(s: string)
  {
    forall k :: 0 <= k < |s| ==> '0' <= s[k] <= '9'
  }

  /** `str(n)` for a non-negative int: decimal digits without leading zeros. */
  function NatToString(n: nat): (r: string)
    ensures r != [] && IsDigits(r)
    ensures r[0] == '0' ==> n == 0 && r == "0"
    decreases n
  {
    if n < 10 then [DigitChar(n)] else NatToString(n / 10) + [DigitChar(n % 10)]
  }

  /** The number a string of decimal digits denotes. */
  function DecimalValue(s: string): nat
    requires IsDigits(s)
  {
    if s == [] then 0
    else 10 * DecimalValue(s[..|s| - 1]) + ((s[|s| - 1] as int) - ('0' as int))
  }

  /** Reading back the rendered index gives the index. */
  lemma {:induction false} DecimalRoundTrip(n: nat)
    ensures DecimalValue(NatToString(n)) == n
    decreases n
  {
    if n >= 10 {
      var r := NatToString(n);
      assert r[..|r| - 1] == NatToString(n / 10);
      DecimalRoundTrip(n / 10);
    }
  }

  /** Index of the first '}' at or after `i`, or `|s|` when there is none. */
  function FindClose(s: string, i: nat): (j: nat)
    requires i <= |s|
    ensures i <= j <= |s|
    ensures j < |s| ==> s[j] == '}'
    ensures forall k :: i <= k < j ==> s[k] != '}'
    decreases |s| - i
  {
    if i == |s| || s[i] == '}' then i else FindClose(s, i + 1)
  }

  function FieldToken(field: string): Option<Token>
  {
    if field == "index" then Some(IndexField)
    else if field == "name" then Some(NameField)
    else if field == "ext" then Some(ExtField)
    else None
  }

  /** Reads the token at the start of a non-empty pattern and how many
      characters it spans, or reports why `str.format` would raise. */
  function Step(s: string): (r: Result<(Token, nat), FormatError>)
    requires s != []
    ensures r.Ok? ==> 0 < r.value.1 <= |s|
  {
    if s[0] == '{' then
      if |s| > 1 && s[1] == '{' then Ok((Lit('{'), 2))
      else
        var j := FindClose(s, 1);
        if j == |s| then Err(UnclosedField)
        else match FieldToken(s[1..j])
          case None => Err(UnknownField(s[1..j]))
          case Some(k) => Ok((k, j + 1))
    else if s[0] == '}' then
      if |s| > 1 && s[1] == '}' then Ok((Lit('}'), 2))
      else Err(SingleClose)
    else Ok((Lit(s[0]), 1))
  }

  /** Splits a pattern into tokens, or reports the first error. */
  function Parse(s: string): Result<seq<Token>, FormatError>
    decreases |s|
  {
    if s == [] then Ok([])
    else match Step(s)
      case Err(e) => Err(e)
      case Ok((k, n)) =>
        match Parse(s[n..])
        case Err(e) => Err(e)
        case Ok(t) => Ok([k] + t)
  }

  function PrintToken(k: Token): string
  {
    match k
    case Lit(c) => if c == '{' then "{{" else if c == '}' then "}}" else [c]
    case IndexField => "{index}"
    case NameField => "{name}"
    case ExtField => "{ext}"
  }

  /** The pattern text a token sequence is written as. */
  function Print(t: seq<Token>): string
  {
    if t == [] then "" else PrintToken(t[0]) + Print(t[1..])
  }

  lemma StepField(s: string, field: string, k: Token, rest: string)
    requires FieldToken(field) == Some(k)
    requires s == "{" + field + "}" + rest
    ensures Step(s) == Ok((k, |field| + 2))
  {
    var j := 1 + |field|;
    assert s[j] == '}';
    assert forall m :: 1 <= m < j ==> s[m] != '}';
    assert FindClose(s, 1) == j;
    assert s[1..j] == field;
  }

  /** The printed form of a token is read back as that token. */
  lemma StepPrint(k: Token, rest: string)
    ensures Step(PrintToken(k) + rest) == Ok((k, |PrintToken(k)|))
  {
    var s := PrintToken(k) + rest;
    match k
    case Lit(c) =>
    case IndexField => StepField(s, "index", k, rest);
    case NameField => StepField(s, "name", k, rest);
    case ExtField => StepField(s, "ext", k, rest);
  }

  /** Whatever `Step` accepts is the printed form of the token it reads. */
  lemma StepIsPrint(s: string)
    requires s != [] && Step(s).Ok?
    ensures s[..Step(s).value.1] == PrintToken(Step(s).value.0)
  {
    if s[0] == '{' && !(|s| > 1 && s[1] == '{') {
      var j := FindClose(s, 1);
      assert s[..j + 1] == "{" + s[1..j] + "}";
    }
  }

  /** Every token sequence is read back exactly from its printed form. */
  lemma {:induction false} ParsePrint(t: seq<Token>)
    ensures Parse(Print(t)) == Ok(t)
  {
    if t != [] {
      var rest := Print(t[1..]);
      var s := Print(t);
      assert s == PrintToken(t[0]) + rest;
      StepPrint(t[0], rest);
      assert s[|PrintToken(t[0])|..] == rest;
      ParsePrint(t[1..]);
      assert [t[0]] + t[1..] == t;
    }
  }

  /** A pattern that parses is exactly the printed form of its tokens, so
      `Parse` and `Print` are mutually inverse on accepted patterns. */
  lemma {:induction false} PrintParse(s: string, t: seq<Token>)
    requires Parse(s) == Ok(t)
    ensures Print(t) == s
    decreases |s|
  {
    if s != [] {
      var (k, n) := Step(s).value;
      var r := Parse(s[n..]);
      assert t == [k] + r.value;
      StepIsPrint(s);
      PrintParse(s[n..], r.value);
      assert s == s[..n] + s[n..];
      assert t[1..] == r.value;
    }
  }

  /** Substitutes the three placeholders. */
  function Render(t: seq<Token>, index: nat, name: string, ext: string): string
  {
    if t == [] then ""
    else
      var head := match t[0]
        case Lit(c) => [c]
        case IndexField => NatToString(index)
        case NameField => name
        case ExtField => ext;
      head + Render(t[1..], index, name, ext)
  }

  /** `pattern.format(index=..., name=..., ext=...)`. */
  function Format(pattern: string, index: nat, name: string, ext: string): (r: Result<string, FormatError>)
    ensures r.Ok? <==> Parse(pattern).Ok?
  {
    match Parse(pattern)
    case Ok(t) => Ok(Render(t, index, name, ext))
    case Err(e) => Err(e)
  }

  /** A pattern without placeholders renders to the same text for every
      entry: its literal characters. */
  lemma {:induction false} RenderLiteralsOnly(t: seq<Token>, index: nat, name: string, ext: string)
    requires forall k :: 0 <= k < |t| ==> t[k].Lit?
    ensures |Render(t, index, name, ext)| == |t|
    ensures forall k :: 0 <= k < |t| ==> Render(t, index, name, ext)[k] == t[k].c
  {
    if t != [] {
      RenderLiteralsOnly(t[1..], index, name, ext);
    }
  }
}
