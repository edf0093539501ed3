/** What trimming does to a text. */
module Text {
  import opened Domain

  predicate White(s: string) {
    forall k | 0 <= k < |s| :: IsSpace(s[k])
  }

  /** The text neither begins nor ends with white space. */
  predicate Neat(s: string) {
    s != "" ==> !IsSpace(s[0]) && !IsSpace(s[|s| - 1])
  }

  /** `s` is `core` with white space around it. */
  ghost predicate Around(s: string, core: string) {
    exists a, b :: White(a) && White(b) && s == a + core + b
  }

  lemma {:induction false} TrimLeftMeans(s: string) returns (a: string)
    ensures White(a) && s == a + TrimLeft(s)
    ensures TrimLeft(s) != "" ==> !IsSpace(TrimLeft(s)[0])
  {
    if |s| > 0 && IsSpace(s[0]) {
      a := TrimLeftMeans(s[1..]);
      a := [s[0]] + a;
      assert s == [s[0]] + s[1..];
    } else {
      a := "";
    }
  }

  lemma {:induction false} TrimRightMeans(s: string) returns (b: string)
    ensures White(b) && s == TrimRight(s) + b
    ensures TrimRight(s) != "" ==> !IsSpace(TrimRight(s)[|TrimRight(s)| - 1])
  {
    if |s| > 0 && IsSpace(s[|s| - 1]) {
      b := TrimRightMeans(s[..|s| - 1]);
      b := b + [s[|s| - 1]];
      assert s == s[..|s| - 1] + [s[|s| - 1]];
    } else {
      b := "";
    }
  }

  lemma {:induction false} TrimLeftSkips(a: string, s: string)
    requires White(a) && (s != "" ==> !IsSpace(s[0]))
    ensures TrimLeft(a + s) == s
  {
    if a == "" {
      assert a + s == s;
    } else {
      assert (a + s)[1..] == a[1..] + s;
      TrimLeftSkips(a[1..], s);
    }
  }

  lemma {:induction false} TrimRightSkips(s: string, b: string)
    requires White(b) && (s != "" ==> !IsSpace(s[|s| - 1]))
    ensures TrimRight(s + b) == s
  {
    if b == "" {
      assert s + b == s;
    } else {
      assert (s + b)[..|s + b| - 1] == s + b[..|b| - 1];
      TrimRightSkips(s, b[..|b| - 1]);
    }
  }

  lemma TrimWhite(a: string, b: string)
    requires White(a) && White(b)
    ensures Trim(a + b) == ""
  {
    assert a + b == a + b + "";
    TrimLeftSkips(a + b, "");
  }

  /** Trimming takes away exactly the white space at both ends: what is left is the one neat text that
      the original is, with white space around it. */
  lemma TrimIff(s: string, core: string)
    ensures Trim(s) == core <==> Neat(core) && Around(s, core)
  {
    var a := TrimLeftMeans(s);
    var b := TrimRightMeans(TrimLeft(s));
    assert s == a + Trim(s) + b;
    assert Neat(Trim(s)) by {
      if Trim(s) != "" {
        assert TrimLeft(s)[0] == Trim(s)[0];
      }
    }
    if Neat(core) && Around(s, core) {
      var c, d :| White(c) && White(d) && s == c + core + d;
      if core == "" {
        assert s == c + d;
        TrimWhite(c, d);
      } else {
        assert s == c + (core + d);
        TrimLeftSkips(c, core + d);
        TrimRightSkips(core, d);
      }
    }
  }

  // ---------------------------------------------------------------- joined texts

  lemma DropPrefix(prefix: string, x: string, y: string)
    requires prefix + x == prefix + y
    ensures x == y
  {
    assert x == (prefix + x)[|prefix|..];
    assert y == (prefix + y)[|prefix|..];
  }

  /** Joining from the left and from the right gives the same text. */
  lemma Regroup(a: string, b: string, c: string, d: string, e: string, f: string, g: string)
    ensures a + b + c + d + e + f + g == a + (b + (c + (d + (e + (f + g)))))
  {
    assert a + b + c + d + e + f + g == a + b + c + d + e + (f + g);
    assert a + b + c + d + e + (f + g) == a + b + c + d + (e + (f + g));
    assert a + b + c + d + (e + (f + g)) == a + b + c + (d + (e + (f + g)));
    assert a + b + c + (d + (e + (f + g))) == a + b + (c + (d + (e + (f + g))));
    assert a + b + (c + (d + (e + (f + g)))) == a + (b + (c + (d + (e + (f + g)))));
  }
}
