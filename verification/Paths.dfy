/**
 Decimal rendering and materialized ancestor paths.

 A folder's path is the decimal id of every ancestor from the root down, each followed by '/'.
 It is printed by string concatenation and read back with Trim, Split and Sscanf.
 */
module Paths {

  // ----- decimal numbers -----

  predicate IsDigit(c: char) { '0' <= c <= '9' }

  predicate AllDigits(s: string) { forall i | 0 <= i < |s| :: IsDigit(s[i]) }

  /** `%d` of an unsigned integer. */
  function Str(n: nat): (s: string)
    ensures s != [] && AllDigits(s)
  {
    if n < 10 then ['0' + n as char] else Str(n / 10) + ['0' + (n % 10) as char]
  }

  function Value(s: string): nat
    requires AllDigits(s)
  {
    if s == [] then 0 else 10 * Value(s[..|s| - 1]) + (s[|s| - 1] - '0') as nat
  }

  function DigitPrefix(s: string): (p: string)
    ensures AllDigits(p)
  {
    if s == [] || !IsDigit(s[0]) then [] else [s[0]] + DigitPrefix(s[1..])
  }

  /** Sscanf with "%d" into an integer that starts as 0: the leading digits, or 0 if there are none. */
  function Scan(s: string): nat { Value(DigitPrefix(s)) }

  lemma {:induction false} DigitPrefixOfDigits(s: string)
    requires AllDigits(s)
    ensures DigitPrefix(s) == s
  {
    if s != [] {
      DigitPrefixOfDigits(s[1..]);
    }
  }

  lemma {:induction false} ScanStr(n: nat)
    ensures Scan(Str(n)) == n
  {
    var s := Str(n);
    DigitPrefixOfDigits(s);
    if n < 10 {
      assert s[..0] == [] && Value([]) == 0;
      assert Value(s) == (s[0] - '0') as nat;
    } else {
      ScanStr(n / 10);
      DigitPrefixOfDigits(Str(n / 10));
      assert s[..|s| - 1] == Str(n / 10);
      assert Value(s) == 10 * Value(Str(n / 10)) + (s[|s| - 1] - '0') as nat;
    }
  }

  lemma StrInjective(m: nat, n: nat)
    requires Str(m) == Str(n)
    ensures m == n
  {
    ScanStr(m);
    ScanStr(n);
  }

  /** Digits up to a non-digit terminator: two such strings agree only token by token. */
  lemma TokenPrefix(u: string, x: string, v: string, y: string, sep: char)
    requires AllDigits(u) && AllDigits(v) && !IsDigit(sep)
    ensures u + [sep] + x <= v + [sep] + y <==> u == v && x <= y
  {
    var a, b := u + [sep] + x, v + [sep] + y;
    if a <= b {
      assert a[|u|] == sep && b[|v|] == sep;
      assert forall i | 0 <= i < |u| :: a[i] == u[i];
      assert forall i | 0 <= i < |v| :: b[i] == v[i];
      assert |u| == |v|;
      assert u == a[..|u|] && v == b[..|u|] && a[..|u|] == b[..|u|];
      assert x == a[|u| + 1..] && y == b[|u| + 1..];
      assert x <= y;
    }
  }

  /** `userID:deviceID`: the string keys name pairs one for one. */
  function PairKey(u: nat, d: nat): string { Str(u) + ":" + Str(d) }

  lemma PairKeyInjective(u: nat, d: nat, u': nat, d': nat)
    requires PairKey(u, d) == PairKey(u', d')
    ensures u == u' && d == d'
  {
    TokenPrefix(Str(u), Str(d), Str(u'), Str(d'), ':');
    TokenPrefix(Str(u'), Str(d'), Str(u), Str(d), ':');
    StrInjective(u, u');
    StrInjective(d, d');
  }

  // ----- printing a path -----

  function Last<T>(s: seq<T>): T
    requires s != []
  {
    s[|s| - 1]
  }

  function Front<T>(s: seq<T>): seq<T>
    requires s != []
  {
    s[..|s| - 1]
  }

  function Render(ids: seq<nat>): string {
    if ids == [] then "" else Render(Front(ids)) + Str(Last(ids)) + "/"
  }

  lemma RenderSnoc(ids: seq<nat>, id: nat)
    ensures Render(ids + [id]) == Render(ids) + Str(id) + "/"
  {
  }

  lemma {:induction false} RenderConcat(a: seq<nat>, b: seq<nat>)
    ensures Render(a + b) == Render(a) + Render(b)
  {
    if b == [] {
      assert a + b == a;
    } else {
      RenderConcat(a, Front(b));
      FrontConcat(a, b);
      Associative(Render(a), Render(Front(b)), Str(Last(b)), "/");
    }
  }

  lemma FrontConcat<T>(a: seq<T>, b: seq<T>)
    requires b != []
    ensures a + b != [] && Front(a + b) == a + Front(b) && Last(a + b) == Last(b)
  {
  }

  lemma Associative(a: string, b: string, c: string, d: string)
    ensures (a + b) + c + d == a + (b + c + d)
  {
  }

  lemma RenderCons(ids: seq<nat>)
    requires ids != []
    ensures Render(ids) == Str(ids[0]) + ['/'] + Render(ids[1..])
  {
    RenderSnoc([], ids[0]);
    assert [] + [ids[0]] == [ids[0]] && ids == [ids[0]] + ids[1..];
    RenderConcat([ids[0]], ids[1..]);
  }

  /** String prefix of rendered paths is exactly prefix of the id lists: "1/2/" never matches "1/20/". */
  lemma {:induction false} RenderPrefix(a: seq<nat>, b: seq<nat>)
    ensures Render(a) <= Render(b) <==> a <= b
  {
    if a != [] {
      RenderCons(a);
      if b != [] {
        RenderCons(b);
        TokenPrefix(Str(a[0]), Render(a[1..]), Str(b[0]), Render(b[1..]), '/');
        RenderPrefix(a[1..], b[1..]);
        assert a == [a[0]] + a[1..] && b == [b[0]] + b[1..];
        if Str(a[0]) == Str(b[0]) {
          StrInjective(a[0], b[0]);
        }
        assert a <= b <==> a[0] == b[0] && a[1..] <= b[1..];
      }
    }
  }

  lemma RenderInjective(a: seq<nat>, b: seq<nat>)
    requires Render(a) == Render(b)
    ensures a == b
  {
    RenderPrefix(a, b);
    RenderPrefix(b, a);
  }

  /** Replacing the rendered prefix by another one replaces the id prefix. */
  lemma RenderReplacePrefix(old_: seq<nat>, new_: seq<nat>, ids: seq<nat>)
    requires old_ <= ids
    ensures Render(old_) <= Render(ids)
    ensures Render(new_) + Render(ids)[|Render(old_)|..] == Render(new_ + ids[|old_|..])
  {
    RenderPrefix(old_, ids);
    RenderConcat(old_, ids[|old_|..]);
    assert ids == old_ + ids[|old_|..];
    RenderConcat(new_, ids[|old_|..]);
  }

  // ----- parsing a path -----

  /** strings.Split with a one-character separator. */
  function Split(s: string, sep: char): (parts: seq<string>)
    ensures parts != []
  {
    if s == [] then [""]
    else
      var rest := Split(s[1..], sep);
      if s[0] == sep then [""] + rest else [[s[0]] + rest[0]] + rest[1..]
  }

  function TrimLeft(s: string, c: char): string {
    if s != [] && s[0] == c then TrimLeft(s[1..], c) else s
  }

  function TrimRight(s: string, c: char): string {
    if s != [] && Last(s) == c then TrimRight(Front(s), c) else s
  }

  /** strings.Trim with a one-character cutset. */
  function Trim(s: string, c: char): string { TrimRight(TrimLeft(s, c), c) }

  /** The ids of the non-empty parts, in order. */
  function IdsOf(parts: seq<string>): seq<nat> {
    if parts == [] then []
    else IdsOf(Front(parts)) + (if Last(parts) == "" then [] else [Scan(Last(parts))])
  }

  function ParseIds(path: string): seq<nat> { IdsOf(Split(Trim(path, '/'), '/')) }

  lemma {:induction false} IdsOfConcat(a: seq<string>, b: seq<string>)
    ensures IdsOf(a + b) == IdsOf(a) + IdsOf(b)
  {
    if b == [] {
      assert a + b == a;
    } else {
      IdsOfConcat(a, Front(b));
      assert Front(a + b) == a + Front(b);
    }
  }

  lemma {:induction false} SplitToken(u: string, s: string, sep: char)
    requires sep !in u
    ensures Split(u + [sep] + s, sep) == [u] + Split(s, sep)
  {
    if u == [] {
      assert u + [sep] + s == [sep] + s;
    } else {
      SplitToken(u[1..], s, sep);
      var whole := u + [sep] + s;
      assert whole[1..] == u[1..] + [sep] + s;
      var rest := Split(whole[1..], sep);
      assert rest[0] == u[1..] && rest[1..] == Split(s, sep) && whole[0] == u[0];
      assert [u[0]] + u[1..] == u;
    }
  }

  lemma {:induction false} SplitTrailing(s: string, sep: char)
    ensures Split(s + [sep], sep) == Split(s, sep) + [""]
  {
    if s == [] {
      assert Split([sep], sep) == [""] + Split([], sep);
    } else {
      SplitTrailing(s[1..], sep);
      assert (s + [sep])[1..] == s[1..] + [sep];
    }
  }

  lemma {:induction false} TrimLeftKeepsIds(s: string)
    ensures IdsOf(Split(TrimLeft(s, '/'), '/')) == IdsOf(Split(s, '/'))
  {
    if s != [] && s[0] == '/' {
      TrimLeftKeepsIds(s[1..]);
      IdsOfConcat([""], Split(s[1..], '/'));
      assert IdsOf([""]) == [];
    }
  }

  lemma {:induction false} TrimRightKeepsIds(s: string)
    ensures IdsOf(Split(TrimRight(s, '/'), '/')) == IdsOf(Split(s, '/'))
  {
    if s != [] && Last(s) == '/' {
      TrimRightKeepsIds(Front(s));
      assert s == Front(s) + ['/'];
      SplitTrailing(Front(s), '/');
      IdsOfConcat(Split(Front(s), '/'), [""]);
      assert IdsOf([""]) == [];
    }
  }

  lemma {:induction false} SplitRender(ids: seq<nat>)
    ensures IdsOf(Split(Render(ids), '/')) == ids
  {
    if ids == [] {
      assert IdsOf([""]) == [];
    } else {
      RenderCons(ids);
      SplitToken(Str(ids[0]), Render(ids[1..]), '/');
      IdsOfConcat([Str(ids[0])], Split(Render(ids[1..]), '/'));
      ScanStr(ids[0]);
      assert IdsOf([Str(ids[0])]) == [ids[0]] by {
        assert Front([Str(ids[0])]) == [];
      }
      SplitRender(ids[1..]);
      assert ids == [ids[0]] + ids[1..];
    }
  }

  /** Printing and parsing a path gives back the same ids. */
  lemma ParseRender(ids: seq<nat>)
    ensures ParseIds(Render(ids)) == ids
  {
    TrimLeftKeepsIds(Render(ids));
    TrimRightKeepsIds(TrimLeft(Render(ids), '/'));
    SplitRender(ids);
  }
}
