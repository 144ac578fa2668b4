/**
 * The text side of a subscribe request: the comma-separated `tags` field is
 * split with PHP's explode(','), every piece is trimmed with PHP's default
 * trim() and empty pieces are dropped.
 */
module TagText {

  /** The characters PHP's trim() strips by default: " \t\n\r\0\x0B". */
  predicate IsTrimChar(c: char)
  {
    c == ' ' || c == '\t' || c == '\n' || c == '\r' || c == '\0' || c == '\U{000B}'
  }

  /** `r` is `s` with the run of trim characters at each end cut off, starting at offset `i`. */
  ghost predicate TrimmedAt(s: string, r: string, i: nat)
  {
    && i + |r| <= |s|
    && r == s[i..i + |r|]
    && (forall k :: 0 <= k < i ==> IsTrimChar(s[k]))
    && (forall k :: i + |r| <= k < |s| ==> IsTrimChar(s[k]))
    && (r == [] || (!IsTrimChar(r[0]) && !IsTrimChar(r[|r| - 1])))
  }

  /** PHP ltrim($s): drop the leading trim characters. */
  function TrimLeft(s: string): string
  {
    if s != [] && IsTrimChar(s[0]) then TrimLeft(s[1..]) else s
  }

  /** PHP rtrim($s): drop the trailing trim characters. */
  function TrimRight(s: string): string
  {
    if s != [] && IsTrimChar(s[|s| - 1]) then TrimRight(s[..|s| - 1]) else s
  }

  lemma {:induction false} TrimLeftSpec(s: string)
    ensures var r := TrimLeft(s);
      && |r| <= |s| && r == s[|s| - |r|..]
      && (forall k :: 0 <= k < |s| - |r| ==> IsTrimChar(s[k]))
      && (r == [] || !IsTrimChar(r[0]))
  {
    if s != [] && IsTrimChar(s[0]) {
      var t := s[1..];
      TrimLeftSpec(t);
      var r := TrimLeft(t);
      assert TrimLeft(s) == r;
      assert t[|t| - |r|..] == s[|s| - |r|..];
      forall k | 0 <= k < |s| - |r| ensures IsTrimChar(s[k]) {
        if k > 0 {
          assert s[k] == t[k - 1];
        }
      }
    }
  }

  lemma {:induction false} TrimRightSpec(s: string)
    ensures var r := TrimRight(s);
      && |r| <= |s| && r == s[..|r|]
      && (forall k :: |r| <= k < |s| ==> IsTrimChar(s[k]))
      && (r == [] || !IsTrimChar(r[|r| - 1]))
  {
    if s != [] && IsTrimChar(s[|s| - 1]) {
      var t := s[..|s| - 1];
      TrimRightSpec(t);
      var r := TrimRight(t);
      assert TrimRight(s) == r;
      assert t[..|r|] == s[..|r|];
      forall k | |r| <= k < |s| ensures IsTrimChar(s[k]) {
        if k < |t| {
          assert s[k] == t[k];
        }
      }
    }
  }

  /** PHP trim($s) with the default character list. */
  function Trim(s: string): string
  {
    TrimRight(TrimLeft(s))
  }

  /** Trim cuts exactly the runs of trim characters at both ends. */
  lemma TrimSpec(s: string)
    ensures exists i :: TrimmedAt(s, Trim(s), i)
  {
    var l := TrimLeft(s);
    var r := TrimRight(l);
    TrimLeftSpec(s);
    TrimRightSpec(l);
    var i := |s| - |l|;
    assert l == s[i..];
    assert r == l[..|r|];
    assert l[..|r|] == s[i..i + |r|];
    assert r != [] ==> !IsTrimChar(r[0]) by {
      if r != [] {
        assert r[0] == l[0];
      }
    }
    forall k | i + |r| <= k < |s| ensures IsTrimChar(s[k]) {
      assert s[k] == l[k - i];
    }
    assert TrimmedAt(s, r, i);
    assert Trim(s) == r;
  }

  /** TrimmedAt pins the result down: trim has exactly one possible outcome. */
  lemma TrimmedAtUnique(s: string, r1: string, i1: nat, r2: string, i2: nat)
    requires TrimmedAt(s, r1, i1) && TrimmedAt(s, r2, i2)
    ensures r1 == r2
  {
    if r1 != [] && r2 != [] {
      assert s[i1] == r1[0] && s[i2] == r2[0];
      assert i1 == i2;
      assert s[i1 + |r1| - 1] == r1[|r1| - 1] && s[i2 + |r2| - 1] == r2[|r2| - 1];
      assert |r1| == |r2|;
    }
  }

  /** The result of trim is a fixed point of trim. */
  lemma TrimIdempotent(s: string)
    ensures Trim(Trim(s)) == Trim(s)
  {
    var t := Trim(s);
    TrimSpec(s);
    TrimSpec(t);
    assert TrimmedAt(t, t, 0);
    var i: nat :| TrimmedAt(t, Trim(t), i);
    TrimmedAtUnique(t, t, 0, Trim(t), i);
  }

  /** A string trims to nothing exactly when every character of it is a trim character. */
  lemma TrimEmptyIff(s: string)
    ensures Trim(s) == [] <==> forall k :: 0 <= k < |s| ==> IsTrimChar(s[k])
  {
    TrimSpec(s);
    var i: nat :| TrimmedAt(s, Trim(s), i);
  }

  /** Trim only cuts: what it returns is a contiguous part of its argument. */
  lemma TrimInfix(s: string, c: char)
    ensures c in Trim(s) ==> c in s
  {
    var t := Trim(s);
    TrimSpec(s);
    var i: nat :| TrimmedAt(s, t, i);
    if c in t {
      var k :| 0 <= k < |t| && t[k] == c;
      assert s[i..i + |t|][k] == c;
    }
  }

  /** Inverse of Explode: glue the pieces back with commas. */
  function Join(ps: seq<string>): string
    requires |ps| >= 1
  {
    if |ps| == 1 then ps[0] else ps[0] + "," + Join(ps[1..])
  }

  /** PHP explode(',', $s): the pieces between commas, always at least one. */
  function Explode(s: string): (r: seq<string>)
    ensures |r| >= 1
    ensures forall p :: p in r ==> ',' !in p
  {
    if s == [] then [[]]
    else if s[0] == ',' then [[]] + Explode(s[1..])
    else
      var t := Explode(s[1..]);
      [[s[0]] + t[0]] + t[1..]
  }

  lemma {:induction false} JoinExplode(s: string)
    ensures Join(Explode(s)) == s
  {
    if s == [] {
    } else if s[0] == ',' {
      JoinExplode(s[1..]);
      assert Explode(s)[1..] == Explode(s[1..]);
    } else {
      var t := Explode(s[1..]);
      JoinExplode(s[1..]);
      if |t| == 1 {
        assert Join(Explode(s)) == [s[0]] + t[0];
      } else {
        assert Explode(s)[1..] == t[1..];
        assert Join(t) == t[0] + "," + Join(t[1..]);
        assert Join(Explode(s)) == [s[0]] + t[0] + "," + Join(t[1..]);
      }
    }
  }

  lemma {:induction false} ExplodeJoin(ps: seq<string>)
    requires |ps| >= 1
    requires forall p :: p in ps ==> ',' !in p
    ensures Explode(Join(ps)) == ps
  {
    if |ps| == 1 {
      ExplodeNoComma(ps[0]);
    } else {
      ExplodeJoin(ps[1..]);
      ExplodePrefix(ps[0], Join(ps[1..]));
    }
  }

  /** A comma-free string explodes to itself. */
  lemma {:induction false} ExplodeNoComma(s: string)
    requires ',' !in s
    ensures Explode(s) == [s]
  {
    if s != [] {
      assert s[0] != ',' && ',' !in s[1..];
      ExplodeNoComma(s[1..]);
      assert [s[0]] + s[1..] == s;
    }
  }

  /** A comma-free head followed by a comma contributes exactly one piece. */
  lemma {:induction false} ExplodePrefix(p: string, rest: string)
    requires ',' !in p
    ensures Explode(p + "," + rest) == [p] + Explode(rest)
  {
    if p == [] {
      assert p + "," + rest == [','] + rest;
      assert (p + "," + rest)[1..] == rest;
    } else {
      var whole := p + "," + rest;
      ExplodePrefix(p[1..], rest);
      assert whole[0] == p[0] && p[0] != ',';
      assert whole[1..] == p[1..] + "," + rest;
      var t := Explode(whole[1..]);
      assert t[0] == p[1..] && t[1..] == Explode(rest);
      assert [p[0]] + p[1..] == p;
    }
  }

  /** Trim every piece and keep the non-empty ones, in order. */
  function Clean(ps: seq<string>): seq<string>
  {
    if ps == [] then []
    else
      var t := Trim(ps[|ps| - 1]);
      Clean(ps[..|ps| - 1]) + (if t == [] then [] else [t])
  }

  /** Cleaning one more piece appends its trim, unless that is empty. */
  lemma CleanStep(ps: seq<string>, i: nat)
    requires i < |ps|
    ensures Clean(ps[..i + 1]) == Clean(ps[..i]) + (if Trim(ps[i]) == [] then [] else [Trim(ps[i])])
  {
    assert ps[..i + 1][..i] == ps[..i];
  }

  /** A tag survives cleaning exactly when it is the non-empty trim of some piece. */
  lemma {:induction false} CleanMembers(ps: seq<string>, t: string)
    ensures t in Clean(ps) <==> t != [] && exists p :: p in ps && Trim(p) == t
  {
    if ps != [] {
      var front := ps[..|ps| - 1];
      var last := ps[|ps| - 1];
      CleanMembers(front, t);
      assert ps == front + [last];
      if t != [] && Trim(last) == t {
        assert last in ps;
      }
      if p :| p in ps && Trim(p) == t && p != last {
        assert p in front;
      }
    }
  }

  /** The tag list of a subscribe request: explode, trim, drop empty pieces. */
  function ParseTags(field: string): seq<string>
  {
    Clean(Explode(field))
  }

  /**
   * Every parsed tag is non-empty, already trimmed and free of commas, and a
   * string is a parsed tag exactly when it is the non-empty trim of a piece.
   */
  lemma ParseTagsSpec(field: string)
    ensures forall t :: t in ParseTags(field) ==> t != [] && Trim(t) == t && ',' !in t
    ensures forall t :: t in ParseTags(field) <==> t != [] && exists p :: p in Explode(field) && Trim(p) == t
  {
    var r := ParseTags(field);
    forall t ensures t in r <==> t != [] && exists p :: p in Explode(field) && Trim(p) == t {
      CleanMembers(Explode(field), t);
    }
    forall t | t in r ensures t != [] && Trim(t) == t && ',' !in t {
      CleanMembers(Explode(field), t);
      var p :| p in Explode(field) && Trim(p) == t;
      TrimIdempotent(p);
      TrimInfix(p, ',');
    }
  }

  /** A field made only of commas and blanks subscribes to nothing. */
  lemma BlankFieldHasNoTags(field: string)
    requires forall k :: 0 <= k < |field| ==> field[k] == ',' || IsTrimChar(field[k])
    ensures ParseTags(field) == []
  {
    if ParseTags(field) != [] {
      var t := ParseTags(field)[0];
      ParseTagsSpec(field);
      assert t in ParseTags(field);
      var p :| p in Explode(field) && Trim(p) == t;
      ExplodePieceChars(field, p);
      assert ',' !in p;
      forall k | 0 <= k < |p| ensures IsTrimChar(p[k]) {
        assert p[k] in field;
        var j :| 0 <= j < |field| && field[j] == p[k];
      }
      TrimEmptyIff(p);
    }
  }

  /** Every character of a piece comes from the exploded string. */
  lemma {:induction false} ExplodePieceChars(s: string, p: string)
    requires p in Explode(s)
    ensures forall c :: c in p ==> c in s
  {
    if s == [] {
    } else if s[0] == ',' {
      if p != [] {
        ExplodePieceChars(s[1..], p);
      }
    } else {
      var t := Explode(s[1..]);
      if p == [s[0]] + t[0] {
        ExplodePieceChars(s[1..], t[0]);
      } else {
        assert p in t;
        ExplodePieceChars(s[1..], p);
      }
    }
  }
}
