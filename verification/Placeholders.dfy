/** `Database._convert_params`: `?` placeholders become `$1, $2, ...` for Postgres. */
module Placeholders {

  datatype Dialect = Sqlite | Postgres

  // ---------------------------------------------------------------- decimal numerals

  predicate IsDigit(c: char) {
    '0' <= c <= '9'
  }

  function Digit(d: nat): (c: char)
    requires d < 10
    ensures IsDigit(c)
  {
    ['0', '1', '2', '3', '4', '5', '6', '7', '8', '9'][d]
  }

  function Decimal(n: nat): (s: string)
    ensures s != "" && forall i :: 0 <= i < |s| ==> IsDigit(s[i])
  {
    if n < 10 then [Digit(n)] else Decimal(n / 10) + [Digit(n % 10)]
  }

  function DigitValue(c: char): nat
    requires IsDigit(c)
  {
    (c as int) - ('0' as int)
  }

  /** The number a run of digits denotes. */
  function Numeral(s: string): nat
    requires forall i :: 0 <= i < |s| ==> IsDigit(s[i])
  {
    if s == "" then 0 else 10 * Numeral(s[..|s| - 1]) + DigitValue(s[|s| - 1])
  }

  lemma {:induction false} NumeralOfDecimal(n: nat)
    ensures Numeral(Decimal(n)) == n
  {
    if n >= 10 {
      NumeralOfDecimal(n / 10);
      assert Decimal(n)[..|Decimal(n)| - 1] == Decimal(n / 10);
    }
  }

  // ---------------------------------------------------------------- the rewriting

  /** Rewriting the rest of a text in which `n` placeholders have been seen. */
  function Convert(sql: string, n: nat): string {
    if sql == "" then ""
    else if sql[0] == '?' then "$" + Decimal(n + 1) + Convert(sql[1..], n + 1)
    else [sql[0]] + Convert(sql[1..], n)
  }

  function Join(parts: seq<string>): string {
    if parts == [] then "" else Join(parts[..|parts| - 1]) + parts[|parts| - 1]
  }

  lemma JoinAppend(parts: seq<string>, part: string)
    ensures Join(parts + [part]) == Join(parts) + part
  {
    assert (parts + [part])[..|parts|] == parts;
  }

  lemma JoinNothing()
    ensures Join([]) == ""
  {
  }

  lemma ConvertOne(rest: string, n: nat, part: string, n': nat)
    requires rest != ""
    requires if rest[0] == '?' then n' == n + 1 && part == "$" + Decimal(n') else n' == n && part == [rest[0]]
    ensures Convert(rest, n) == part + Convert(rest[1..], n')
  {
  }

  lemma Regroup(a: string, b: string, c: string)
    ensures a + b + c == a + (b + c)
  {
  }

  lemma {:induction false} NoMarksNoChange(sql: string, n: nat)
    requires '?' !in sql
    ensures Convert(sql, n) == sql
  {
    if sql != "" {
      NoMarksNoChange(sql[1..], n);
    }
  }

  /** The loop over the characters, collecting parts. */
  method ConvertParams(dialect: Dialect, sql: string) returns (result: string)
    ensures result == if dialect == Postgres then Convert(sql, 0) else sql
  {
    if dialect == Postgres && '?' in sql {
      hide Decimal, Join;
      var parts: seq<string> := [];
      JoinNothing();
      var n: nat := 0;
      for i := 0 to |sql|
        invariant Join(parts) + Convert(sql[i..], n) == Convert(sql, 0)
      {
        var ch := sql[i];
        var part := [ch];
        ghost var before := n;
        if ch == '?' {
          n := n + 1;
          part := "$" + Decimal(n);
        }
        JoinAppend(parts, part);
        ConvertOne(sql[i..], before, part, n);
        assert sql[i..][1..] == sql[i + 1..];
        Regroup(Join(parts), part, Convert(sql[i + 1..], n));
        parts := parts + [part];
      }
      return Join(parts);
    }
    if dialect == Postgres {
      NoMarksNoChange(sql, 0);
    }
    return sql;
  }

  // ---------------------------------------------------------------- what a reader sees

  datatype Token = Text(c: char) | Param(number: nat)

  /** How many digits a text starts with. */
  function DigitRun(s: string): (k: nat)
    ensures k <= |s| && (forall i :: 0 <= i < k ==> IsDigit(s[i])) && (k < |s| ==> !IsDigit(s[k]))
  {
    if s == "" || !IsDigit(s[0]) then 0 else 1 + DigitRun(s[1..])
  }

  /** A reader that takes the longest run of digits after `$` as a parameter number. */
  function Read(s: string): seq<Token>
    decreases |s|
  {
    if s == "" then []
    else if s[0] == '$' && DigitRun(s[1..]) > 0 then
      var k := DigitRun(s[1..]);
      [Param(Numeral(s[1..][..k]))] + Read(s[1 + k..])
    else [Text(s[0])] + Read(s[1..])
  }

  /** What is meant: the i-th `?` is parameter i, everything else is text. */
  function Meant(sql: string, n: nat): seq<Token> {
    if sql == "" then []
    else if sql[0] == '?' then [Param(n + 1)] + Meant(sql[1..], n + 1)
    else [Text(sql[0])] + Meant(sql[1..], n)
  }

  /** No `?` and no `$` is directly followed by a digit. */
  predicate Clear(sql: string) {
    forall i :: 0 <= i < |sql| - 1 && (sql[i] == '?' || sql[i] == '$') ==> !IsDigit(sql[i + 1])
  }

  predicate StartsWithDigit(s: string) {
    s != "" && IsDigit(s[0])
  }

  /** The first character is not a `?` or `$` with a digit behind it. */
  predicate HeadClear(sql: string) {
    sql != "" && (sql[0] == '?' || sql[0] == '$') ==> !StartsWithDigit(sql[1..])
  }

  lemma ClearSplits(sql: string)
    requires sql != ""
    ensures Clear(sql) <==> HeadClear(sql) && Clear(sql[1..])
  {
    var rest := sql[1..];
    assert forall i :: 0 <= i < |rest| ==> rest[i] == sql[i + 1];
    if HeadClear(sql) && Clear(rest) {
      forall i | 0 <= i < |sql| - 1 && (sql[i] == '?' || sql[i] == '$') ensures !IsDigit(sql[i + 1]) {
        if i > 0 {
          assert rest[i - 1] == sql[i] && rest[i] == sql[i + 1];
        }
      }
    }
  }

  lemma ConvertHead(sql: string, n: nat)
    ensures StartsWithDigit(Convert(sql, n)) <==> StartsWithDigit(sql)
  {
  }

  lemma {:induction false} RunOf(digits: string, rest: string)
    requires forall i :: 0 <= i < |digits| ==> IsDigit(digits[i])
    ensures DigitRun(digits + rest) == |digits| + DigitRun(rest)
  {
    if digits == "" {
      assert digits + rest == rest;
    } else {
      RunOf(digits[1..], rest);
      assert (digits + rest)[1..] == digits[1..] + rest;
    }
  }

  /** More digits make a larger number. */
  lemma {:induction false} NumeralGrows(digits: string, more: string)
    requires forall i :: 0 <= i < |digits| ==> IsDigit(digits[i])
    requires forall i :: 0 <= i < |more| ==> IsDigit(more[i])
    requires Numeral(digits) > 0 && more != ""
    ensures forall i :: 0 <= i < |digits + more| ==> IsDigit((digits + more)[i])
    ensures Numeral(digits + more) > Numeral(digits)
  {
    var front := more[..|more| - 1];
    assert (digits + more)[..|digits + more| - 1] == digits + front;
    if front != "" {
      NumeralGrows(digits, front);
    } else {
      assert digits + front == digits;
    }
  }

  lemma ReadDollar(digits: string, rest: string)
    requires digits != "" && forall i :: 0 <= i < |digits| ==> IsDigit(digits[i])
    ensures Read("$" + digits + rest) != []
    ensures !StartsWithDigit(rest) ==> Read("$" + digits + rest) == [Param(Numeral(digits))] + Read(rest)
    ensures StartsWithDigit(rest) && Numeral(digits) > 0 ==> Read("$" + digits + rest)[0] != Param(Numeral(digits))
  {
    var text := "$" + digits + rest;
    var tail := digits + rest;
    assert text[1..] == tail;
    RunOf(digits, rest);
    var k := DigitRun(tail);
    if StartsWithDigit(rest) {
      var more := rest[..DigitRun(rest)];
      assert tail[..k] == digits + more;
      if Numeral(digits) > 0 {
        NumeralGrows(digits, more);
      }
    } else {
      assert tail[..k] == digits;
      assert text[1 + k..] == rest;
    }
  }

  /** What the reader makes of a converted `?`. */
  lemma ReadMark(sql: string, n: nat)
    requires sql != "" && sql[0] == '?'
    ensures
      var out := Read(Convert(sql, n));
      && (!StartsWithDigit(sql[1..]) ==> out == [Param(n + 1)] + Read(Convert(sql[1..], n + 1)))
      && (StartsWithDigit(sql[1..]) ==> out != [] && out[0] != Param(n + 1))
  {
    ReadDollar(Decimal(n + 1), Convert(sql[1..], n + 1));
    ConvertHead(sql[1..], n + 1);
    NumeralOfDecimal(n + 1);
  }

  /** What the reader makes of any other character. */
  lemma ReadOther(sql: string, n: nat)
    requires sql != "" && sql[0] != '?'
    ensures
      var out := Read(Convert(sql, n));
      && (HeadClear(sql) ==> out == [Text(sql[0])] + Read(Convert(sql[1..], n)))
      && (!HeadClear(sql) ==> out != [] && out[0] != Text(sql[0]))
  {
    var text := Convert(sql, n);
    assert text[1..] == Convert(sql[1..], n);
    ConvertHead(sql[1..], n);
  }

  /** Placeholder rewriting keeps the meaning of exactly the texts in which no `?` and no `$`
      is directly followed by a digit: only there does the reader see parameters 1, 2, ...
      where the placeholders stood and the same text around them. */
  lemma {:induction false} ReadsAsMeantIff(sql: string, n: nat)
    ensures Read(Convert(sql, n)) == Meant(sql, n) <==> Clear(sql)
  {
    if sql != "" {
      ClearSplits(sql);
      var rest := sql[1..];
      if sql[0] == '?' {
        ReadMark(sql, n);
        ReadsAsMeantIff(rest, n + 1);
        SameTail(Param(n + 1), Read(Convert(rest, n + 1)), Meant(rest, n + 1));
      } else {
        ReadOther(sql, n);
        ReadsAsMeantIff(rest, n);
        SameTail(Text(sql[0]), Read(Convert(rest, n)), Meant(rest, n));
      }
    }
  }

  lemma SameTail(t: Token, xs: seq<Token>, ys: seq<Token>)
    ensures [t] + xs == [t] + ys <==> xs == ys
  {
    assert ([t] + xs)[1..] == xs && ([t] + ys)[1..] == ys;
  }

  // ---------------------------------------------------------------- substituting arguments

  /** Substituting arguments by parameter number. */
  function ByNumber(tokens: seq<Token>, arg: nat -> string): string {
    if tokens == [] then ""
    else
      match tokens[0]
      case Text(c) => [c] + ByNumber(tokens[1..], arg)
      case Param(k) => arg(k) + ByNumber(tokens[1..], arg)
  }

  /** Substituting arguments for `?` by position. */
  function ByPosition(sql: string, n: nat, arg: nat -> string): string {
    if sql == "" then ""
    else if sql[0] == '?' then arg(n + 1) + ByPosition(sql[1..], n + 1, arg)
    else [sql[0]] + ByPosition(sql[1..], n, arg)
  }

  lemma {:induction false} MeantByNumber(sql: string, n: nat, arg: nat -> string)
    ensures ByNumber(Meant(sql, n), arg) == ByPosition(sql, n, arg)
  {
    if sql != "" {
      MeantByNumber(sql[1..], if sql[0] == '?' then n + 1 else n, arg);
    }
  }

  /** Binding by number in the converted text gives what binding by position gives in the source. */
  lemma SameBinding(sql: string, arg: nat -> string)
    requires Clear(sql)
    ensures ByNumber(Read(Convert(sql, 0)), arg) == ByPosition(sql, 0, arg)
  {
    ReadsAsMeantIff(sql, 0);
    MeantByNumber(sql, 0, arg);
  }

  // ---------------------------------------------------------------- undoing the rewriting

  /** A decoder that knows which ordinal comes next. */
  function Decode(s: string, n: nat): string
    decreases |s|
  {
    if s == "" then ""
    else if s[0] == '$' && Decimal(n + 1) <= s[1..] then "?" + Decode(s[1 + |Decimal(n + 1)|..], n + 1)
    else [s[0]] + Decode(s[1..], n)
  }

  /** No `$` of the source is followed by the ordinal that the next `?` would get. */
  predicate Undoable(sql: string, n: nat) {
    sql == ""
    || (if sql[0] == '?' then Undoable(sql[1..], n + 1)
        else !(sql[0] == '$' && Decimal(n + 1) <= sql[1..]) && Undoable(sql[1..], n))
  }

  lemma {:induction false} DigitsUnconverted(digits: string, sql: string, n: nat)
    requires forall i :: 0 <= i < |digits| ==> IsDigit(digits[i])
    ensures digits <= Convert(sql, n) <==> digits <= sql
  {
    if digits != "" && sql != "" {
      var text := Convert(sql, n);
      if sql[0] == '?' {
        assert text[0] == '$';
      } else {
        DigitsUnconverted(digits[1..], sql[1..], n);
        assert text[1..] == Convert(sql[1..], n);
        PrefixStep(digits, text);
        PrefixStep(digits, sql);
      }
    }
  }

  lemma PrefixStep(d: string, s: string)
    requires d != "" && s != ""
    ensures d <= s <==> d[0] == s[0] && d[1..] <= s[1..]
  {
    if d[0] == s[0] && d[1..] <= s[1..] {
      assert forall i :: 0 < i < |d| ==> d[i] == d[1..][i - 1] == s[1..][i - 1] == s[i];
    }
    if d <= s {
      assert forall i :: 0 <= i < |d[1..]| ==> d[1..][i] == d[i + 1] == s[i + 1] == s[1..][i];
    }
  }

  lemma DecodeMark(digits: string, rest: string, n: nat)
    requires digits == Decimal(n + 1)
    ensures Decode("$" + digits + rest, n) == "?" + Decode(rest, n + 1)
  {
    var text := "$" + digits + rest;
    assert text[1..] == digits + rest;
    assert text[1 + |digits|..] == rest;
  }

  /** The rewriting is undone by the decoder exactly where no `$` of the source already
      carries the ordinal of the next placeholder. */
  lemma {:induction false} DecodeIff(sql: string, n: nat)
    ensures Decode(Convert(sql, n), n) == sql <==> Undoable(sql, n)
  {
    if sql != "" {
      var rest := sql[1..];
      if sql[0] == '?' {
        DecodeMark(Decimal(n + 1), Convert(rest, n + 1), n);
        DecodeIff(rest, n + 1);
        SameRest('?', Decode(Convert(rest, n + 1), n + 1), rest);
        assert sql == "?" + rest;
      } else {
        var text := Convert(sql, n);
        assert text[1..] == Convert(rest, n);
        DigitsUnconverted(Decimal(n + 1), rest, n);
        DecodeIff(rest, n);
        SameRest(sql[0], Decode(Convert(rest, n), n), rest);
        assert sql == [sql[0]] + rest;
      }
    }
  }

  lemma SameRest(c: char, xs: string, ys: string)
    ensures [c] + xs == [c] + ys <==> xs == ys
  {
    assert ([c] + xs)[1..] == xs && ([c] + ys)[1..] == ys;
  }

  lemma {:induction false} NoDollarUndoable(sql: string, n: nat)
    requires '$' !in sql
    ensures Undoable(sql, n)
  {
    if sql != "" {
      NoDollarUndoable(sql[1..], if sql[0] == '?' then n + 1 else n);
    }
  }

  /** On sources without `$` the rewriting is undone by the decoder, so it loses nothing. */
  lemma ConvertIsInjective(a: string, b: string)
    requires '$' !in a && '$' !in b && Convert(a, 0) == Convert(b, 0)
    ensures a == b
  {
    NoDollarUndoable(a, 0);
    NoDollarUndoable(b, 0);
    DecodeIff(a, 0);
    DecodeIff(b, 0);
  }

  /** With a `$` in a source it can: these two become the same text. */
  lemma DollarCollides()
    ensures "?" != "$1" && Convert("?", 0) == Convert("$1", 0)
  {
    assert "?"[1..] == "" && "$1"[1..] == "1" && "1"[1..] == "";
    assert Convert("", 1) == "" && Convert("1", 0) == "1";
    assert Convert("?", 0) == "$" + Decimal(1) + "";
  }

  function Marks(sql: string): nat {
    if sql == "" then 0 else Marks(sql[1..]) + if sql[0] == '?' then 1 else 0
  }

  /** The decimal widths of n + 1, ..., n + k. */
  function Widths(n: nat, k: nat): nat
    decreases k
  {
    if k == 0 then 0 else |Decimal(n + 1)| + Widths(n + 1, k - 1)
  }

  lemma {:induction false} ConvertLength(sql: string, n: nat)
    ensures |Convert(sql, n)| == |sql| + Widths(n, Marks(sql))
  {
    if sql != "" {
      ConvertLength(sql[1..], if sql[0] == '?' then n + 1 else n);
    }
  }
}
