/**
 * The few pieces of the Java standard library that the compiler relies on,
 * modelled on values: decimal rendering of integers, Integer.parseInt,
 * Boolean.parseBoolean, Character.getNumericValue, String.contains and
 * String.split with a regular expression made of literal alternatives.
 */
module JavaLang {
  import opened Wrappers

  const INT_MIN: int := -0x8000_0000
  const INT_MAX: int := 0x7FFF_FFFF

  predicate IsDigit(c: char) { '0' <= c <= '9' }

  function DigitChar(d: nat): (c: char)
    requires d < 10
    ensures IsDigit(c) && c as int - '0' as int == d
  {
    ('0' as int + d) as char
  }

  /** Decimal text of a natural number, without leading zeros. */
  function NatToString(n: nat): string
    decreases n
  {
    if n < 10 then [DigitChar(n)] else NatToString(n / 10) + [DigitChar(n % 10)]
  }

  /** What string concatenation shows for an int or a long. */
  function IntToString(n: int): string
  {
    if n < 0 then "-" + NatToString(-n) else NatToString(n)
  }

  /** String.valueOf of a reference that may be null. */
  function ShowOrNull<T>(o: Option<T>, show: T -> string): string
  {
    match o
    case None => "null"
    case Some(x) => show(x)
  }

  predicate AllDigits(s: string)
  {
    forall i :: 0 <= i < |s| ==> IsDigit(s[i])
  }

  function DigitsValue(s: string): nat
    requires AllDigits(s)
    decreases |s|
  {
    if s == [] then 0 else DigitsValue(s[..|s| - 1]) * 10 + (s[|s| - 1] as int - '0' as int)
  }

  /** The text after an optional leading sign. */
  function Magnitude(s: string): string
  {
    if |s| > 0 && (s[0] == '-' || s[0] == '+') then s[1..] else s
  }

  /**
   * Integer.parseInt: an optional sign followed by at least one decimal digit,
   * with a value that fits in 32 bits; None stands for NumberFormatException.
   */
  function ParseInt(s: string): (r: Option<int>)
    ensures r.Some? ==> INT_MIN <= r.value <= INT_MAX
    ensures r.Some? ==> |s| > 0 && (IsDigit(s[0]) || ((s[0] == '-' || s[0] == '+') && |s| > 1))
  {
    var m := Magnitude(s);
    if |m| == 0 || !AllDigits(m) then None
    else
      var v: int := if |s| > 0 && s[0] == '-' then -(DigitsValue(m) as int) else DigitsValue(m);
      if INT_MIN <= v <= INT_MAX then Some(v) else None
  }

  predicate IsIntLiteral(s: string) { ParseInt(s).Some? }

  lemma {:induction false} NatToStringDigits(n: nat)
    ensures |NatToString(n)| > 0 && AllDigits(NatToString(n))
    ensures DigitsValue(NatToString(n)) == n
    decreases n
  {
    if n >= 10 {
      NatToStringDigits(n / 10);
      var s := NatToString(n);
      assert s[..|s| - 1] == NatToString(n / 10);
    }
  }

  /** Integer.parseInt reads back every 32-bit value rendered by IntToString. */
  lemma ParseIntOfIntToString(n: int)
    requires INT_MIN <= n <= INT_MAX
    ensures ParseInt(IntToString(n)) == Some(n)
  {
    var m: nat := if n < 0 then -n else n;
    var digits := NatToString(m);
    NatToStringDigits(m);
    assert IsDigit(digits[0]);
    var s := IntToString(n);
    assert s == (if n < 0 then "-" + digits else digits);
    assert Magnitude(s) == digits by {
      if n < 0 {
        assert s[0] == '-' && s[1..] == digits;
      }
    }
  }

  function LowerAscii(c: char): char
  {
    if 'A' <= c <= 'Z' then (c as int - 'A' as int + 'a' as int) as char else c
  }

  /** Boolean.parseBoolean: true exactly for "true" in any mix of letter case. */
  function ParseBoolean(s: string): (b: bool)
    ensures b ==> |s| == 4
    ensures b <==> (|s| == 4 && LowerAscii(s[0]) == 't' && LowerAscii(s[1]) == 'r'
                             && LowerAscii(s[2]) == 'u' && LowerAscii(s[3]) == 'e')
  {
    var lowered := seq(|s|, i requires 0 <= i < |s| => LowerAscii(s[i]));
    assert |s| == 4 ==> (lowered == "true" <==>
                           (lowered[0] == 't' && lowered[1] == 'r' && lowered[2] == 'u' && lowered[3] == 'e'));
    lowered == "true"
  }

  /**
   * Character.getNumericValue on the ASCII range: a digit gives its value,
   * a Latin letter its position from 10 up to 35, anything else -1.
   */
  function NumericValue(c: char): (v: int)
    ensures -1 <= v <= 35
    ensures IsDigit(c) ==> v == c as int - '0' as int
  {
    if IsDigit(c) then c as int - '0' as int
    else if 'a' <= c <= 'z' then c as int - 'a' as int + 10
    else if 'A' <= c <= 'Z' then c as int - 'A' as int + 10
    else -1
  }

  /** String.contains. */
  predicate Contains(s: string, part: string)
  {
    exists i :: 0 <= i <= |s| && part <= s[i..]
  }

  predicate NonEmptyAlternatives(alts: seq<string>)
  {
    forall j :: 0 <= j < |alts| ==> |alts[j]| > 0
  }

  /** Some alternative starts the text. */
  predicate StartsWithAny(s: string, alts: seq<string>)
  {
    exists j :: 0 <= j < |alts| && alts[j] <= s
  }

  /** No alternative occurs anywhere in the text. */
  predicate AvoidsAll(s: string, alts: seq<string>)
  {
    forall i :: 0 <= i <= |s| ==> !StartsWithAny(s[i..], alts)
  }

  /**
   * The length of the separator a regular expression made of the literal
   * alternatives `alts` matches at the start of `s`: the first alternative,
   * in the order written, that is a prefix of `s`.
   */
  function FirstMatch(s: string, alts: seq<string>): (k: Option<nat>)
    requires NonEmptyAlternatives(alts)
    ensures k.Some? ==> 0 < k.value <= |s|
    ensures k.None? <==> !StartsWithAny(s, alts)
    decreases |alts|
  {
    if alts == [] then None
    else if alts[0] <= s then Some(|alts[0]|)
    else
      var k := FirstMatch(s, alts[1..]);
      assert forall j :: 1 <= j < |alts| ==> alts[j] == alts[1..][j - 1];
      k
  }

  /**
   * The pieces between separators, scanning left to right and taking the
   * leftmost match each time, before trailing empty pieces are dropped.
   */
  function RawSplit(s: string, alts: seq<string>): (r: seq<string>)
    requires NonEmptyAlternatives(alts)
    ensures |r| >= 1
    decreases |s|
  {
    if s == [] then [""]
    else match FirstMatch(s, alts)
      case Some(k) => [""] + RawSplit(s[k..], alts)
      case None =>
        var rest := RawSplit(s[1..], alts);
        [[s[0]] + rest[0]] + rest[1..]
  }

  function DropTrailingEmpty(pieces: seq<string>): (r: seq<string>)
    ensures r <= pieces
    ensures r == [] || r[|r| - 1] != ""
    ensures forall i :: |r| <= i < |pieces| ==> pieces[i] == ""
    decreases |pieces|
  {
    if pieces == [] then []
    else if pieces[|pieces| - 1] == "" then DropTrailingEmpty(pieces[..|pieces| - 1])
    else pieces
  }

  /**
   * String.split(regex) with limit 0, for a regex that is an alternation of
   * literal separators: when nothing matches the result is the whole string,
   * otherwise the pieces without the trailing empty ones.
   */
  function Split(s: string, alts: seq<string>): seq<string>
    requires NonEmptyAlternatives(alts)
  {
    var raw := RawSplit(s, alts);
    if |raw| == 1 then raw else DropTrailingEmpty(raw)
  }

  lemma {:induction false} RawSplitFirstIsPrefix(s: string, alts: seq<string>)
    requires NonEmptyAlternatives(alts)
    ensures RawSplit(s, alts)[0] <= s
    decreases |s|
  {
    if s != [] && FirstMatch(s, alts).None? {
      RawSplitFirstIsPrefix(s[1..], alts);
    }
  }

  lemma {:induction false} RawSplitPiecesAvoidSeparators(s: string, alts: seq<string>)
    requires NonEmptyAlternatives(alts)
    ensures forall p :: p in RawSplit(s, alts) ==> AvoidsAll(p, alts)
    decreases |s|
  {
    if s == [] {
      assert AvoidsAll("", alts) by {
        forall j | 0 <= j < |alts| ensures !(alts[j] <= "") { }
      }
    } else {
      match FirstMatch(s, alts)
      case Some(k) =>
        RawSplitPiecesAvoidSeparators(s[k..], alts);
        assert AvoidsAll("", alts) by {
          forall j | 0 <= j < |alts| ensures !(alts[j] <= "") { }
        }
      case None =>
        var rest := RawSplit(s[1..], alts);
        RawSplitPiecesAvoidSeparators(s[1..], alts);
        RawSplitFirstIsPrefix(s[1..], alts);
        var head := [s[0]] + rest[0];
        assert head <= s;
        forall i | 0 <= i <= |head| ensures !StartsWithAny(head[i..], alts) {
          if i == 0 {
            forall j | 0 <= j < |alts| ensures !(alts[j] <= head) {
              assert !(alts[j] <= s);
            }
          } else {
            assert head[i..] == rest[0][i - 1..];
            assert AvoidsAll(rest[0], alts);
          }
        }
    }
  }

  /** No piece that String.split returns contains one of its separators. */
  lemma SplitPiecesAvoidSeparators(s: string, alts: seq<string>)
    requires NonEmptyAlternatives(alts)
    ensures forall p :: p in Split(s, alts) ==> AvoidsAll(p, alts)
  {
    RawSplitPiecesAvoidSeparators(s, alts);
    var raw := RawSplit(s, alts);
    if |raw| != 1 {
      var r := DropTrailingEmpty(raw);
      forall p | p in r ensures p in raw {
        var i :| 0 <= i < |r| && r[i] == p;
        assert raw[i] == p;
      }
    }
  }

  /** The pieces put back together, `seps[k]` between `pieces[k]` and `pieces[k + 1]`. */
  function Join(pieces: seq<string>, seps: seq<string>): string
    requires |pieces| == |seps| + 1
    decreases |seps|
  {
    if seps == [] then pieces[0] else pieces[0] + seps[0] + Join(pieces[1..], seps[1..])
  }

  /** Text in front of the first piece ends up in front of the joined text. */
  lemma JoinExtendsFirst(x: string, pieces: seq<string>, seps: seq<string>)
    requires |pieces| == |seps| + 1
    ensures Join([x + pieces[0]] + pieces[1..], seps) == x + Join(pieces, seps)
  {
    var q := [x + pieces[0]] + pieces[1..];
    if seps != [] {
      assert q[1..] == pieces[1..];
    }
  }

  /** The separators the scan of RawSplit consumes, in order. */
  function Separators(s: string, alts: seq<string>): seq<string>
    requires NonEmptyAlternatives(alts)
    decreases |s|
  {
    if s == [] then []
    else match FirstMatch(s, alts)
      case Some(k) => [s[..k]] + Separators(s[k..], alts)
      case None => Separators(s[1..], alts)
  }

  /** A match found by FirstMatch is one of the alternatives. */
  lemma {:induction false} FirstMatchIsAlternative(s: string, alts: seq<string>)
    requires NonEmptyAlternatives(alts) && FirstMatch(s, alts).Some?
    ensures s[..FirstMatch(s, alts).value] in alts
    decreases |alts|
  {
    if alts[0] <= s {
      assert s[..|alts[0]|] == alts[0];
    } else {
      assert forall j :: 1 <= j < |alts| ==> alts[j] == alts[1..][j - 1];
      FirstMatchIsAlternative(s, alts[1..]);
      assert alts == [alts[0]] + alts[1..];
    }
  }

  /** Every separator is one of the alternatives. */
  predicate AllAlternatives(seps: seq<string>, alts: seq<string>)
  {
    forall i :: 0 <= i < |seps| ==> seps[i] in alts
  }

  /** The pieces of RawSplit, joined with the separators the scan consumed, give back the text. */
  predicate JoinsBack(s: string, alts: seq<string>)
    requires NonEmptyAlternatives(alts)
  {
    var seps := Separators(s, alts);
    && |seps| + 1 == |RawSplit(s, alts)|
    && AllAlternatives(seps, alts)
    && Join(RawSplit(s, alts), seps) == s
  }

  lemma {:induction false} RawSplitJoins(s: string, alts: seq<string>)
    requires NonEmptyAlternatives(alts)
    ensures var seps := Separators(s, alts);
            && |seps| + 1 == |RawSplit(s, alts)|
            && (forall k :: 0 <= k < |seps| ==> seps[k] in alts)
            && Join(RawSplit(s, alts), seps) == s
    decreases |s|
  {
    RawSplitJoinsBack(s, alts);
  }

  lemma {:induction false} RawSplitJoinsBack(s: string, alts: seq<string>)
    requires NonEmptyAlternatives(alts)
    ensures JoinsBack(s, alts)
    decreases |s|
  {
    if s == [] {
      assert Separators(s, alts) == [] && RawSplit(s, alts) == [""];
    } else {
      match FirstMatch(s, alts)
      case Some(k) =>
        RawSplitJoinsBack(s[k..], alts);
        JoinsAfterSeparator(s, alts, k);
      case None =>
        RawSplitJoinsBack(s[1..], alts);
        JoinsAfterCharacter(s, alts);
    }
  }

  /** An empty piece and a separator in front of joined pieces. */
  lemma JoinBehindSeparator(sep: string, pieces: seq<string>, seps: seq<string>)
    requires |pieces| == |seps| + 1
    ensures Join([""] + pieces, [sep] + seps) == sep + Join(pieces, seps)
  {
    assert ([""] + pieces)[1..] == pieces;
    assert ([sep] + seps)[1..] == seps;
  }

  lemma SeparatorsStayAlternatives(sep: string, seps: seq<string>, alts: seq<string>)
    requires sep in alts && AllAlternatives(seps, alts)
    ensures AllAlternatives([sep] + seps, alts)
  {
  }

  lemma JoinsAfterSeparator(s: string, alts: seq<string>, k: nat)
    requires NonEmptyAlternatives(alts) && s != [] && FirstMatch(s, alts) == Some(k)
    requires JoinsBack(s[k..], alts)
    ensures JoinsBack(s, alts)
  {
    FirstMatchIsAlternative(s, alts);
    var rest, seps := RawSplit(s[k..], alts), Separators(s[k..], alts);
    assert RawSplit(s, alts) == [""] + rest;
    assert Separators(s, alts) == [s[..k]] + seps;
    JoinBehindSeparator(s[..k], rest, seps);
    SeparatorsStayAlternatives(s[..k], seps, alts);
    assert s[..k] + s[k..] == s;
  }

  lemma JoinsAfterCharacter(s: string, alts: seq<string>)
    requires NonEmptyAlternatives(alts) && s != [] && FirstMatch(s, alts).None?
    requires JoinsBack(s[1..], alts)
    ensures JoinsBack(s, alts)
  {
    var rest, seps := RawSplit(s[1..], alts), Separators(s[1..], alts);
    assert RawSplit(s, alts) == [[s[0]] + rest[0]] + rest[1..];
    assert Separators(s, alts) == seps;
    JoinExtendsFirst([s[0]], rest, seps);
    assert [s[0]] + s[1..] == s;
  }

  /** Some alternative occurs in the text exactly when the scan consumes a separator. */
  lemma {:induction false} SeparatorFoundWhenOneOccurs(s: string, alts: seq<string>)
    requires NonEmptyAlternatives(alts)
    ensures !AvoidsAll(s, alts) <==> |Separators(s, alts)| > 0
    decreases |s|
  {
    if s == [] {
      assert AvoidsAll(s, alts) by {
        forall i | 0 <= i <= |s| ensures !StartsWithAny(s[i..], alts) {
          forall j | 0 <= j < |alts| ensures !(alts[j] <= s[i..]) { }
        }
      }
    } else {
      SeparatorFoundWhenOneOccurs(s[1..], alts);
      assert s[0..] == s;
      match FirstMatch(s, alts)
      case Some(k) =>
      case None =>
        forall i | 1 <= i <= |s| ensures s[i..] == s[1..][i - 1..] { }
    }
  }

  /**
   * String.split gives back the text: between consecutive pieces, and then
   * in place of the trailing empty pieces it dropped, stand separators that
   * are all among the alternatives.
   */
  lemma SplitRoundTrip(s: string, alts: seq<string>)
    requires NonEmptyAlternatives(alts)
    ensures exists n: nat, seps: seq<string> ::
              && |seps| + 1 == |Split(s, alts)| + n
              && (forall k :: 0 <= k < |seps| ==> seps[k] in alts)
              && Join(Split(s, alts) + EmptyPieces(n), seps) == s
  {
    RawSplitJoins(s, alts);
    var raw := RawSplit(s, alts);
    var r := Split(s, alts);
    var n := |raw| - |r|;
    assert r + EmptyPieces(n) == raw by {
      forall i | 0 <= i < |raw| ensures (r + EmptyPieces(n))[i] == raw[i] {
        if i >= |r| {
          assert raw[i] == "";
        }
      }
    }
    var seps := Separators(s, alts);
    assert |seps| + 1 == |r| + n && Join(r + EmptyPieces(n), seps) == s;
  }

  function EmptyPieces(n: nat): (r: seq<string>)
    ensures |r| == n && forall i :: 0 <= i < n ==> r[i] == ""
  {
    seq(n, _ => "")
  }

  /** String.split returns the whole text as its one piece exactly when no alternative occurs in it. */
  lemma SplitKeepsUnmatchedText(s: string, alts: seq<string>)
    requires NonEmptyAlternatives(alts)
    ensures AvoidsAll(s, alts) <==> Split(s, alts) == [s]
  {
    SplitPiecesAvoidSeparators(s, alts);
    if AvoidsAll(s, alts) {
      SeparatorFoundWhenOneOccurs(s, alts);
      RawSplitJoins(s, alts);
    }
  }
}
