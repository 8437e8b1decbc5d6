/** Go's fmt.Sprintf applied to a format string and no arguments: what
    status.Errorf(code, format) makes of its format when it is given nothing to
    format. Text outside directives is copied. A directive is
    `%[flags][[n]][width][.[[n]]precision][[n]]verb`; with no arguments it writes `%`
    for the verb `%` and otherwise reports the missing argument. */
module GoFormat {
  import opened Wrappers

  const NoVerb := "%!(NOVERB)"
  const BadWidth := "%!(BADWIDTH)"
  const BadPrec := "%!(BADPREC)"

  /** The parser's cap on widths, precisions and argument indexes: a number that
      has grown past it makes the parser give up on the rest of the number's text. */
  const TooLarge: nat := 1000000

  /** What a verb with no argument to format writes. */
  function Missing(v: char): string
  {
    "%!" + [v] + "(MISSING)"
  }

  /** The directive parser's state: the text written so far for this directive,
      the format text still to read, whether the argument index is still usable,
      and whether an explicit `[n]` was just read. */
  datatype Spec = Spec(text: string, rest: string, goodArgNum: bool, afterIndex: bool)

  /** An optional `[n]`: whether a bracket was there, whether it held a well-formed
      index, and the text after it. */
  datatype ArgIndex = ArgIndex(bracket: bool, ok: bool, rest: string)

  /** What one directive writes, and the format text after it. */
  datatype Directive = Directive(text: string, rest: string)

  predicate IsFlag(c: char)
  {
    c == '#' || c == '0' || c == '+' || c == '-' || c == ' '
  }

  predicate IsDigit(c: char)
  {
    '0' <= c <= '9'
  }

  function SkipFlags(s: string): (r: string)
    ensures |r| <= |s|
    ensures r == [] || !IsFlag(r[0])
    ensures forall k :: 0 <= k < |s| - |r| ==> IsFlag(s[k])
    ensures r == s[|s| - |r|..]
  {
    if s != [] && IsFlag(s[0]) then SkipFlags(s[1..]) else s
  }

  /** parsenum: reads the digits at the start of `s` into `num`, reporting whether
      any were read and the text after them. A number past the cap makes the parser
      jump to the end of the text, reporting no number. */
  function ScanNumber(s: string, num: nat, isNum: bool): (r: (bool, string))
    ensures |r.1| <= |s|
    ensures r.1 == [] || !IsDigit(r.1[0])
    decreases |s|
  {
    if s != [] && IsDigit(s[0]) then
      if num > TooLarge then (false, [])
      else ScanNumber(s[1..], num * 10 + (s[0] as int - '0' as int), true)
    else (isNum, s)
  }

  /** The first `]` at or after `from`. */
  function CloseBracket(s: string, from: nat): (r: Option<nat>)
    requires from <= |s|
    ensures r.Some? ==> from <= r.value < |s| && s[r.value] == ']'
    ensures r.Some? ==> forall k :: from <= k < r.value ==> s[k] != ']'
    ensures r.None? ==> forall k :: from <= k < |s| ==> s[k] != ']'
    decreases |s| - from
  {
    if from == |s| then None
    else if s[from] == ']' then Some(from)
    else CloseBracket(s, from + 1)
  }

  /** argNumber with no arguments: any `[n]` is out of range. A bracket with no
      closing `]`, or too short to hold an index, skips only the `[`. */
  function ArgNumber(s: string): (r: ArgIndex)
    ensures |r.rest| <= |s|
    ensures r.bracket <==> s != [] && s[0] == '['
    ensures !r.bracket ==> r.rest == s && !r.ok
  {
    if s == [] || s[0] != '[' then ArgIndex(false, false, s)
    else if |s| < 3 then ArgIndex(true, false, s[1..])
    else
      match CloseBracket(s, 1)
      case None => ArgIndex(true, false, s[1..])
      case Some(j) => ArgIndex(true, ScanNumber(s[1..j], 0, false) == (true, []), s[j + 1..])
  }

  function Index(p: Spec): (q: Spec)
    ensures |q.rest| <= |p.rest|
  {
    var a := ArgNumber(p.rest);
    p.(rest := a.rest, goodArgNum := p.goodArgNum && !a.bracket, afterIndex := a.ok)
  }

  function Width(p: Spec): (q: Spec)
    ensures |q.rest| <= |p.rest|
  {
    if p.rest != [] && p.rest[0] == '*' then
      p.(text := p.text + BadWidth, rest := p.rest[1..], afterIndex := false)
    else
      var (present, rest) := ScanNumber(p.rest, 0, false);
      p.(rest := rest, goodArgNum := p.goodArgNum && !(p.afterIndex && present))
  }

  /** A `.` starts a precision only when something follows it; a `.` that ends the
      format is left to be read as the verb. */
  function Precision(p: Spec): (q: Spec)
    ensures |q.rest| <= |p.rest|
  {
    if |p.rest| >= 2 && p.rest[0] == '.' then
      var q := Index(p.(rest := p.rest[1..], goodArgNum := p.goodArgNum && !p.afterIndex));
      if q.rest != [] && q.rest[0] == '*' then
        q.(text := q.text + BadPrec, rest := q.rest[1..], afterIndex := false)
      else
        q.(rest := ScanNumber(q.rest, 0, false).1)
    else p
  }

  /** The verb ends the directive: `%` is written as itself; any other verb has no
      argument to format, and the end of the format is a missing verb. */
  function Verb(p: Spec): (d: Directive)
    ensures |d.rest| <= |p.rest|
  {
    var q := if p.afterIndex then p else Index(p);
    if q.rest == [] then Directive(q.text + NoVerb, [])
    else if q.rest[0] == '%' then Directive(q.text + "%", q.rest[1..])
    else if !q.goodArgNum then Directive(q.text + "%!" + [q.rest[0]] + "(BADINDEX)", q.rest[1..])
    else Directive(q.text + Missing(q.rest[0]), q.rest[1..])
  }

  /** One directive; `s` is the format text after its `%`. */
  function ParseDirective(s: string): (d: Directive)
    ensures |d.rest| <= |s|
  {
    var flags := Spec("", SkipFlags(s), true, false);
    Verb(Precision(Width(Index(flags))))
  }

  /** fmt.Sprintf(format) with no arguments. A format without directives is its
      own output. */
  function Sprintf(format: string): (s: string)
    ensures '%' !in format ==> s == format
    decreases |format|
  {
    if format == [] then []
    else if format[0] != '%' then
      PercentFreeTail(format);
      assert format == [format[0]] + format[1..];
      [format[0]] + Sprintf(format[1..])
    else
      var d := ParseDirective(format[1..]);
      d.text + Sprintf(d.rest)
  }

  /** Dropping the first character keeps a text free of `%`. */
  lemma PercentFreeTail(s: string)
    requires s != []
    ensures '%' !in s ==> s[0] != '%' && '%' !in s[1..]
  {
    forall k | 0 <= k < |s[1..]| ensures s[1..][k] == s[k + 1] {
    }
  }

  /** A character other than `%` is copied. */
  lemma PlainCharCopied(c: char, b: string)
    requires c != '%'
    ensures Sprintf([c] + b) == [c] + Sprintf(b)
  {
    assert ([c] + b)[0] == c && ([c] + b)[1..] == b;
  }

  /** Text before the first directive is copied unchanged. */
  lemma {:induction false} PlainPrefixCopied(a: string, b: string)
    requires '%' !in a
    ensures Sprintf(a + b) == a + Sprintf(b)
    decreases |a|
  {
    if a != [] {
      var c, tail := a[0], a[1..];
      PercentFreeTail(a);
      assert a + b == [c] + (tail + b);
      PlainCharCopied(c, tail + b);
      PlainPrefixCopied(tail, b);
      assert a == [c] + tail;
    } else {
      assert a + b == b;
    }
  }

  /** A directive that is only a verb, with no flags, index, width or precision.
      A `.` is a verb only when nothing follows it. */
  lemma BareVerb(v: char, b: string)
    requires !IsFlag(v) && !IsDigit(v) && v != '[' && v != '*'
    requires v != '.' || b == []
    ensures ParseDirective([v] + b) ==
      Directive(if v == '%' then "%" else Missing(v), b)
  {
    var s := [v] + b;
    assert s[0] == v && s[1..] == b;
    assert SkipFlags(s) == s;
    var p := Index(Spec("", s, true, false));
    assert p == Spec("", s, true, false);
    assert ScanNumber(s, 0, false) == (false, s);
    assert Width(p) == p;
    assert Precision(p) == p;
  }

  /** `%%` writes a single `%`. */
  lemma PercentEscaped(b: string)
    ensures Sprintf("%%" + b) == "%" + Sprintf(b)
  {
    assert ("%%" + b)[0] == '%' && ("%%" + b)[1..] == ['%'] + b;
    BareVerb('%', b);
  }

  /** A verb with no argument to format reports it as missing: `%d` writes
      `%!d(MISSING)`. */
  lemma MissingArgumentReported(v: char, b: string)
    requires 'a' <= v <= 'z' || 'A' <= v <= 'Z'
    ensures Sprintf(['%', v] + b) == Missing(v) + Sprintf(b)
  {
    assert (['%', v] + b)[0] == '%' && (['%', v] + b)[1..] == [v] + b;
    BareVerb(v, b);
  }

  /** A `%` at the very end has no verb. */
  lemma TrailingPercentHasNoVerb(a: string)
    requires '%' !in a
    ensures Sprintf(a + "%") == a + NoVerb
  {
    PlainPrefixCopied(a, "%");
    assert "%"[0] == '%' && "%"[1..] == [];
    assert ParseDirective([]) == Directive(NoVerb, []);
  }

  /** A `.` at the very end is not a precision but the verb: `%.` writes
      `%!.(MISSING)`. */
  lemma TrailingDotIsVerb(a: string)
    requires '%' !in a
    ensures Sprintf(a + "%.") == a + Missing('.')
  {
    PlainPrefixCopied(a, "%.");
    LoneDotIsVerb();
  }

  lemma LoneDotIsVerb()
    ensures Sprintf("%.") == Missing('.')
  {
    assert "%."[0] == '%' && "%."[1..] == ['.'] + [];
    BareVerb('.', []);
  }
}
