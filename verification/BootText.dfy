/** The text that carries a snapshot from the helper to the boot script and from there
    into the kernel: decimal numbers, separated fields, lines. */
module BootText {
  import opened MachineInts

  // ---- numbers ----

  function DigitChar(d: nat): (c: char)
    requires d < 10
    ensures '0' <= c <= '9' && DigitValue(c) == Some(d)
    ensures c == '0' <==> d == 0
  {
    (d + '0' as int) as char
  }

  function Digits(n: nat): (s: string)
    ensures s != []
  {
    if n < 10 then [DigitChar(n)] else Digits(n / 10) + [DigitChar(n % 10)]
  }

  /** `%d` */
  function Show(i: int): string
  {
    if i < 0 then "-" + Digits(-i) else Digits(i)
  }

  function DigitValue(c: char): Option<nat>
  {
    if '0' <= c <= '9' then Some((c - '0') as int)
    else if 'a' <= c <= 'f' then Some((c - 'a') as int + 10)
    else if 'A' <= c <= 'F' then Some((c - 'A') as int + 10)
    else None
  }

  /** All of s as digits of the base, or None. */
  function Number(s: string, base: nat): Option<nat>
  {
    if s == [] then None
    else
      match DigitValue(s[|s| - 1])
      case None => None
      case Some(d) =>
        if d >= base then None
        else if |s| == 1 then Some(d)
        else
          match Number(s[..|s| - 1], base)
          case None => None
          case Some(n) => Some(n * base + d)
  }

  /** Base 0 takes 0x as hexadecimal and a leading 0 as octal. */
  function Unsigned(s: string, base: nat): Option<nat>
  {
    if base != 0 then Number(s, base)
    else if s != [] && s[0] == '0' then
      if |s| > 2 && (s[1] == 'x' || s[1] == 'X') && DigitValue(s[2]).Some? then Number(s[2..], 16)
      else Number(s, 8)
    else Number(s, 10)
  }

  function WithoutNewline(s: string): string
  {
    if s != [] && s[|s| - 1] == '\n' then s[..|s| - 1] else s
  }

  /** `kstrtoint`: one trailing newline, one sign, and a value that fits. */
  function Kstrtoint(text: string, base: nat): Option<i32>
  {
    var s := WithoutNewline(text);
    if s != [] && s[0] == '-' then Fitting(Unsigned(s[1..], base), -1)
    else if s != [] && s[0] == '+' then Fitting(Unsigned(s[1..], base), 1)
    else Fitting(Unsigned(s, base), 1)
  }

  function Fitting(magnitude: Option<nat>, sign: int): Option<i32>
  {
    if magnitude.Some? && -TWO_31 <= sign * magnitude.value < TWO_31 then Some(sign * magnitude.value) else None
  }

  /** The unsigned parsers accept one plus sign. */
  function WithoutPlus(s: string): string { if s != [] && s[0] == '+' then s[1..] else s }

  /** `kstrtou64` in base 10, as the powercap files parse. */
  function Kstrtou64(text: string): Option<nat>
  {
    match Unsigned(WithoutPlus(WithoutNewline(text)), 10)
    case None => None
    case Some(n) => if n < TWO_32 * TWO_32 then Some(n) else None
  }

  lemma {:induction false} DigitsAreANumber(n: nat)
    ensures Number(Digits(n), 10) == Some(n)
    ensures Digits(n)[0] == '0' ==> n == 0
    ensures forall c | c in Digits(n) :: '0' <= c <= '9'
  {
    if n >= 10 {
      var s, head := Digits(n), Digits(n / 10);
      DigitsAreANumber(n / 10);
      assert s[..|s| - 1] == head && s[|s| - 1] == DigitChar(n % 10);
      assert s[0] == head[0];
    }
  }

  /** Digits never start with the 0 that would mean octal. */
  lemma DigitsAreUnsigned(n: nat, base: nat)
    requires base == 0 || base == 10
    ensures Unsigned(Digits(n), base) == Some(n)
  {
    DigitsAreANumber(n);
    if n == 0 {
      assert Digits(0) == "0";
      assert Number("0", 8) == Some(0);
    }
  }

  lemma DigitsHaveNoSign(n: nat)
    ensures Digits(n)[0] != '-' && Digits(n)[0] != '+'
    ensures WithoutPlus(Digits(n)) == Digits(n)
  {
    DigitsAreANumber(n);
    assert Digits(n)[0] in Digits(n);
  }

  lemma NewlineIsDropped(s: string)
    requires s != []
    ensures WithoutNewline(s + "\n") == s
  {
    assert (s + "\n")[..|s|] == s;
  }

  /** What the kernel printed it parses back to the same value, in either base. */
  lemma ShownIsParsed(i: i32, base: nat)
    requires base == 0 || base == 10
    ensures Kstrtoint(Show(i) + "\n", base) == Some(i)
  {
    var n: int := Abs(i);
    NewlineIsDropped(Show(i));
    DigitsAreUnsigned(n, base);
    if i < 0 {
      assert Show(i)[1..] == Digits(n);
    } else {
      DigitsHaveNoSign(n);
    }
  }

  lemma ShownIsParsedU64(n: nat)
    requires n < TWO_32 * TWO_32
    ensures Kstrtou64(Show(n) + "\n") == Some(n)
  {
    DigitsHaveNoSign(n);
    DigitsAreUnsigned(n, 10);
    NewlineIsDropped(Show(n));
  }

  /** None of the separators occurs in a number. */
  lemma ShowHasNoSeparator(i: int, c: char)
    requires c in {',', ':', '=', '\n', '#'}
    ensures c !in Show(i) && Show(i) != ""
  {
    DigitsAreANumber(Abs(i));
  }

  // ---- separated fields ----

  function Join(parts: seq<string>, sep: char): string
  {
    if parts == [] then "" else if |parts| == 1 then parts[0] else parts[0] + [sep] + Join(parts[1..], sep)
  }

  /** The text before the first separator, and the rest after it if there is one. */
  function Cut(s: string, sep: char): (r: (string, Option<string>))
    ensures sep !in r.0 && |r.0| <= |s|
    ensures r.1.Some? ==> |r.1.value| < |s| && s == r.0 + [sep] + r.1.value
    ensures r.1.None? ==> r.0 == s
  {
    if s == [] then ("", None)
    else if s[0] == sep then ("", Some(s[1..]))
    else var (h, t) := Cut(s[1..], sep); ([s[0]] + h, t)
  }

  function Split(s: string, sep: char): (parts: seq<string>)
    ensures parts != []
    decreases |s|
  {
    var (h, t) := Cut(s, sep);
    match t
    case None => [h]
    case Some(rest) => [h] + Split(rest, sep)
  }

  lemma {:induction false} CutAt(head: string, sep: char, rest: string)
    requires sep !in head
    ensures Cut(head + [sep] + rest, sep) == (head, Some(rest))
    ensures Cut(head, sep) == (head, None)
    decreases |head|
  {
    if head != [] {
      CutAt(head[1..], sep, rest);
      assert (head + [sep] + rest)[1..] == head[1..] + [sep] + rest;
      assert [head[0]] + head[1..] == head;
      assert head[0] in head;
      assert forall c | c in head[1..] :: c in head;
    }
  }

  /** Splitting undoes joining, whatever the parts, as long as none holds a separator. */
  lemma {:induction false} SplitJoin(parts: seq<string>, sep: char)
    requires parts != [] && forall p | p in parts :: sep !in p
    ensures Split(Join(parts, sep), sep) == parts
    decreases |parts|
  {
    assert parts[0] in parts;
    if |parts| == 1 {
      CutAt(parts[0], sep, "");
    } else {
      var rest := Join(parts[1..], sep);
      CutAt(parts[0], sep, rest);
      assert forall p | p in parts[1..] :: p in parts;
      SplitJoin(parts[1..], sep);
      assert parts == [parts[0]] + parts[1..];
    }
  }

  // ---- lines ----

  /** `"\n".join(lines) + "\n"` */
  function File(lines: seq<string>): string { Join(lines, '\n') + "\n" }

  /** The lines `read` hands to its loop: an unterminated last line is not processed. */
  function Lines(text: string): seq<string>
  {
    var parts := Split(text, '\n');
    parts[..|parts| - 1]
  }

  lemma {:induction false} JoinAppendEmpty(lines: seq<string>, sep: char)
    requires lines != []
    ensures Join(lines, sep) + [sep] == Join(lines + [""], sep)
    decreases |lines|
  {
    if |lines| == 1 {
      assert (lines + [""])[1..] == [""];
    } else {
      JoinAppendEmpty(lines[1..], sep);
      assert (lines + [""])[1..] == lines[1..] + [""];
      assert Join(lines, sep) == lines[0] + [sep] + Join(lines[1..], sep);
      assert Join(lines + [""], sep) == lines[0] + [sep] + Join(lines[1..] + [""], sep);
    }
  }

  lemma FileLines(lines: seq<string>)
    requires lines != [] && forall l | l in lines :: '\n' !in l
    ensures Lines(File(lines)) == lines
  {
    JoinAppendEmpty(lines, '\n');
    SplitJoin(lines + [""], '\n');
  }

  /** `IFS='=' read -r key val` */
  function KeyValue(line: string): (string, string)
  {
    var (key, val) := Cut(line, '=');
    (key, if val.Some? then val.value else "")
  }

  // ---- the curve ----

  /** One point in hardware units. */
  type Pair = (int, int)

  function ShowPair(p: Pair): string { Show(p.0) + ":" + Show(p.1) }

  function ShowPairs(ps: seq<Pair>): (r: seq<string>)
    ensures |r| == |ps| && forall i | 0 <= i < |ps| :: r[i] == ShowPair(ps[i])
  {
    seq(|ps|, i requires 0 <= i < |ps| => ShowPair(ps[i]))
  }

  /** `",".join(curve)` */
  function ShowCurve(ps: seq<Pair>): string { Join(ShowPairs(ps), ',') }

  /** `IFS=',' read -ra pairs`: a trailing empty field is dropped. */
  function Pairs(spec: string): seq<string>
  {
    var parts := Split(spec, ',');
    if parts[|parts| - 1] == "" then parts[..|parts| - 1] else parts
  }

  /** `${pair%%:*}` */
  function BeforeFirstColon(pair: string): string { Cut(pair, ':').0 }

  /** `${pair##*:}` */
  function AfterLastColon(pair: string): string
    decreases |pair|
  {
    var (h, t) := Cut(pair, ':');
    if t.None? then pair else AfterLastColon(t.value)
  }

  lemma PairFields(p: Pair)
    ensures BeforeFirstColon(ShowPair(p)) == Show(p.0)
    ensures AfterLastColon(ShowPair(p)) == Show(p.1)
  {
    ShowHasNoSeparator(p.0, ':');
    ShowHasNoSeparator(p.1, ':');
    CutAt(Show(p.0), ':', Show(p.1));
    CutAt(Show(p.1), ':', "");
  }

  /** The printed curve splits back into exactly its points, for every list of pairs. */
  lemma PrintedCurveParses(ps: seq<Pair>)
    ensures Pairs(ShowCurve(ps)) == ShowPairs(ps)
  {
    if ps == [] {
      assert Split("", ',') == [""];
    } else {
      var parts := ShowPairs(ps);
      forall s | s in parts
        ensures ',' !in s && s != ""
      {
        var i :| 0 <= i < |parts| && parts[i] == s;
        ShowHasNoSeparator(ps[i].0, ',');
        ShowHasNoSeparator(ps[i].1, ',');
      }
      SplitJoin(parts, ',');
      assert parts[|parts| - 1] in parts;
    }
  }

  /** Number for number, the curve read back is the curve printed. */
  lemma CurveRoundTrip(ps: seq<Pair>, i: nat)
    requires i < |ps| && -TWO_31 <= ps[i].0 < TWO_31 && -TWO_31 <= ps[i].1 < TWO_31
    ensures |Pairs(ShowCurve(ps))| == |ps|
    ensures var pair := Pairs(ShowCurve(ps))[i];
            && Kstrtoint(BeforeFirstColon(pair) + "\n", 0) == Some(ps[i].0)
            && Kstrtoint(AfterLastColon(pair) + "\n", 0) == Some(ps[i].1)
  {
    PrintedCurveParses(ps);
    PairFields(ps[i]);
    ShownIsParsed(ps[i].0, 0);
    ShownIsParsed(ps[i].1, 0);
  }
}
