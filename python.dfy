/** The parts of Python's value semantics that the three modules depend on:
    parameter values and their truthiness, dictionaries, `str.join`,
    `str.split`, the substring test `in`, and `str()` of an integer. */
module Python {

  datatype Option<+T> = None | Some(value: T)

  /** A value as the Ansible argument parser hands it over.  `Nothing` is
      Python's `None`; a dictionary keeps its insertion order, as Python's does. */
  datatype Value =
    | Nothing
    | Bool(b: bool)
    | Int(i: int)
    | Str(s: string)
    | List(items: seq<string>)
    | Dict(entries: seq<(string, Value)>)

  /** A dictionary whose iteration order plays no part: the parameter bag,
      the records the console returns, the desired attributes. */
  type Fields = map<string, Value>

  /** Python's truth test (`if v:` / `not v`). */
  predicate Truthy(v: Value)
  {
    match v
    case Nothing => false
    case Bool(b) => b
    case Int(i) => i != 0
    case Str(s) => s != ""
    case List(xs) => xs != []
    case Dict(es) => es != []
  }

  /** `params[key]`: the argument parser fills every declared option, with
      None when the caller left it out, so an absent key reads as None. */
  function Get(m: Fields, key: string): Value
  {
    if key in m then m[key] else Nothing
  }

  /** Python's `v or default`. */
  function Or(v: Value, default: Value): Value
  {
    if Truthy(v) then v else default
  }

  /** The key/value view of a dictionary value; the first binding of a key wins. */
  function ToMap(entries: seq<(string, Value)>): (m: Fields)
    ensures forall k :: k in m <==> exists i :: 0 <= i < |entries| && entries[i].0 == k
  {
    if entries == [] then map[]
    else
      var rest := ToMap(entries[1..]);
      assert forall k :: k in rest <==> exists i :: 1 <= i < |entries| && entries[i].0 == k by {
        forall k | k in rest ensures exists i :: 1 <= i < |entries| && entries[i].0 == k {
          var j :| 0 <= j < |entries[1..]| && entries[1..][j].0 == k;
          assert entries[j + 1].0 == k;
        }
        forall k | exists i :: 1 <= i < |entries| && entries[i].0 == k ensures k in rest {
          var i :| 1 <= i < |entries| && entries[i].0 == k;
          assert entries[1..][i - 1].0 == k;
        }
      }
      rest[entries[0].0 := entries[0].1]
  }

  /** The keys of a dictionary value in iteration order (`for k in d`);
      a value of another type has none. */
  function Keys(v: Value): (ks: seq<string>)
    ensures v.Dict? ==> |ks| == |v.entries|
  {
    if v.Dict? then seq(|v.entries|, i requires 0 <= i < |v.entries| => v.entries[i].0) else []
  }

  /** `sep.join(xs)`. */
  function Join(xs: seq<string>, sep: string): string
  {
    if |xs| == 0 then ""
    else if |xs| == 1 then xs[0]
    else xs[0] + sep + Join(xs[1..], sep)
  }

  /** Position of the first occurrence of `c` in `s`. */
  function IndexOf(s: string, c: char): (i: nat)
    requires c in s
    ensures i < |s| && s[i] == c
    ensures forall j :: 0 <= j < i ==> s[j] != c
  {
    if s[0] == c then 0 else IndexOf(s[1..], c) + 1
  }

  /** `s.split(c)` for a one-character separator: the pieces between the
      occurrences of `c`, so there is always at least one piece. */
  function Split(s: string, c: char): (parts: seq<string>)
    ensures |parts| >= 1
    ensures c !in s ==> parts == [s]
    decreases |s|
  {
    if c in s then
      var i := IndexOf(s, c);
      [s[..i]] + Split(s[i + 1..], c)
    else [s]
  }

  /** The first piece of a split ends at the first separator. */
  lemma SplitFirst(head: string, c: char, tail: string)
    requires c !in head
    ensures Split(head + [c] + tail, c) == [head] + Split(tail, c)
  {
    var s := head + [c] + tail;
    assert s[|head|] == c;
    var i := IndexOf(s, c);
    assert forall j :: 0 <= j < |head| ==> s[j] == head[j];
    assert i == |head|;
    assert s[..i] == head && s[i + 1..] == tail;
  }

  /** Splitting what `Join` glued back apart gives the original pieces, as
      long as no piece contains the separator. */
  lemma {:induction false} SplitJoin(xs: seq<string>, c: char)
    requires xs != []
    requires forall x :: x in xs ==> c !in x
    ensures Split(Join(xs, [c]), c) == xs
  {
    if |xs| > 1 {
      assert xs[0] in xs;
      assert Join(xs, [c]) == xs[0] + [c] + Join(xs[1..], [c]);
      SplitFirst(xs[0], c, Join(xs[1..], [c]));
      assert forall x :: x in xs[1..] ==> x in xs;
      SplitJoin(xs[1..], c);
      assert xs == [xs[0]] + xs[1..];
    }
  }

  /** Python's substring test `needle in hay`. */
  predicate Contains(hay: string, needle: string)
    decreases |hay|
  {
    needle <= hay || (hay != [] && Contains(hay[1..], needle))
  }

  /** Any text that carries the needle somewhere passes the substring test. */
  lemma {:induction false} ContainsInside(prefix: string, needle: string, suffix: string)
    ensures Contains(prefix + needle + suffix, needle)
  {
    if prefix != [] {
      assert (prefix + needle + suffix)[1..] == prefix[1..] + needle + suffix;
      ContainsInside(prefix[1..], needle, suffix);
    } else {
      assert prefix + needle + suffix == needle + suffix;
    }
  }

  predicate IsDigit(ch: char) { '0' as int <= ch as int <= '9' as int }

  /** The decimal digits of `n`, most significant first, as `str(n)` writes them. */
  function Digits(n: nat): (s: string)
    ensures s != [] && forall i :: 0 <= i < |s| ==> IsDigit(s[i])
  {
    var last := ('0' as int + n % 10) as char;
    if n < 10 then [last] else Digits(n / 10) + [last]
  }

  /** The number a string of decimal digits denotes. */
  function DigitsValue(s: string): nat
    requires forall i :: 0 <= i < |s| ==> IsDigit(s[i])
  {
    if s == [] then 0
    else
      assert IsDigit(s[|s| - 1]);
      DigitsValue(s[..|s| - 1]) * 10 + (s[|s| - 1] as int - '0' as int)
  }

  lemma {:induction false} DigitsRoundTrip(n: nat)
    ensures DigitsValue(Digits(n)) == n
  {
    if n >= 10 {
      var s := Digits(n);
      assert s[..|s| - 1] == Digits(n / 10);
      DigitsRoundTrip(n / 10);
    }
  }

  /** `str(i)` for an integer. */
  function IntToString(i: int): string
  {
    if i < 0 then "-" + Digits(-i) else Digits(i)
  }

  /** `int(s)` for the strings `str` produces: an optional minus sign and digits. */
  function ParseInt(s: string): Option<int>
  {
    if s != [] && s[0] == '-' && |s| > 1 && forall i :: 1 <= i < |s| ==> IsDigit(s[i]) then
      var magnitude: int := DigitsValue(s[1..]);
      Some(-magnitude)
    else if s != [] && forall i :: 0 <= i < |s| ==> IsDigit(s[i]) then
      Some(DigitsValue(s))
    else None
  }

  /** The string `str` gives for an integer reads back as that integer. */
  lemma IntRoundTrip(i: int)
    ensures ParseInt(IntToString(i)) == Some(i)
  {
    if i < 0 {
      var s := IntToString(i);
      assert s[1..] == Digits(-i);
      DigitsRoundTrip(-i);
    } else {
      DigitsRoundTrip(i);
    }
  }

  /** Python's `str(v)` for the scalar values that reach a message or a
      console command; containers give the empty string here. */
  function Text(v: Value): string
  {
    match v
    case Nothing => "None"
    case Bool(b) => if b then "True" else "False"
    case Int(i) => IntToString(i)
    case Str(s) => s
    case List(_) => ""
    case Dict(_) => ""
  }
}
