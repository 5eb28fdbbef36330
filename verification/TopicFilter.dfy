/** Topic filter matching: the two-index loop, and the level-by-level rule of section 4.7.1 of
    MQTT 3.1.1 that it is measured against. */
module TopicFilter {
  import opened Prelude

  const SLASH: byte := 0x2F
  const PLUS: byte := 0x2B
  const HASH: byte := 0x23

  // ---- The loop ----

  /** From where the topic's next separator, or its end, is. */
  function SkipLevel(topic: Bytes): Bytes {
    if topic != [] && topic[0] != SLASH then SkipLevel(topic[1..]) else topic
  }

  /** What the loop answers with these parts of topic and filter left. */
  function Matches(topic: Bytes, filter: Bytes): bool
    decreases |filter| + |topic|
  {
    if filter != [] && topic != [] then
      if filter[0] == HASH then true
      else if filter[0] == PLUS then SkipNeverGrows(topic); Matches(SkipLevel(topic), filter[1..])
      else filter[0] == topic[0] && Matches(topic[1..], filter[1..])
    else if filter != [] && filter[0] == HASH then true
    else filter == [] && topic == []
  }

  lemma {:induction false} SkipNeverGrows(topic: Bytes)
    ensures |SkipLevel(topic)| <= |topic|
  {
    if topic != [] && topic[0] != SLASH {
      SkipNeverGrows(topic[1..]);
    }
  }

  method TopicMatchesFilter(topic: Bytes, filter: Bytes) returns (matched: bool)
    ensures matched == Matches(topic, filter)
  {
    var ti, fi := 0, 0;
    while fi < |filter| && ti < |topic|
      invariant ti <= |topic| && fi <= |filter|
      invariant Matches(topic, filter) == Matches(topic[ti..], filter[fi..])
      decreases |filter| - fi + |topic| - ti
    {
      assert filter[fi..][1..] == filter[fi + 1..];
      if filter[fi] == HASH { return true; }
      if filter[fi] == PLUS {
        ghost var skipped := SkipLevel(topic[ti..]);
        while ti < |topic| && topic[ti] != SLASH
          invariant ti <= |topic| && SkipLevel(topic[ti..]) == skipped
        {
          assert topic[ti..][1..] == topic[ti + 1..];
          ti := ti + 1;
        }
        fi := fi + 1;
      } else if filter[fi] == topic[ti] {
        assert topic[ti..][1..] == topic[ti + 1..];
        fi, ti := fi + 1, ti + 1;
      } else {
        return false;
      }
    }
    if fi < |filter| && filter[fi] == HASH { return true; }
    return fi == |filter| && ti == |topic|;
  }

  // ---- The level rule ----

  /** The topic levels: what lies between separators, empty levels included. */
  function Levels(s: Bytes): (r: seq<Bytes>)
    ensures r != []
  {
    if s == [] then [[]]
    else if s[0] == SLASH then [[]] + Levels(s[1..])
    else var r := Levels(s[1..]); [[s[0]] + r[0]] + r[1..]
  }

  /** Sections 4.7.1.2 and 4.7.1.3: a wildcard is a level of its own, and `#` is the last. */
  predicate WellFormedLevels(f: seq<Bytes>) {
    forall i :: 0 <= i < |f| ==>
      && (PLUS in f[i] ==> f[i] == [PLUS])
      && (HASH in f[i] ==> f[i] == [HASH] && i == |f| - 1)
  }

  predicate WellFormed(filter: Bytes) { WellFormedLevels(Levels(filter)) }

  /** `#` stands for any number of levels, the parent's included; `+` for exactly one. */
  predicate LevelsMatch(t: seq<Bytes>, f: seq<Bytes>) {
    if f == [] then t == []
    else if f[0] == [HASH] then true
    else t != [] && (f[0] == [PLUS] || f[0] == t[0]) && LevelsMatch(t[1..], f[1..])
  }

  /** `#` is matched by nothing below its parent level. */
  predicate OnlyParent(t: seq<Bytes>, f: seq<Bytes>) { |f| > |t| }

  /** `+` faces the empty last level of a topic. */
  predicate PlusFacesEmptyEnd(t: seq<Bytes>, f: seq<Bytes>) {
    0 < |t| <= |f| && t[|t| - 1] == [] && f[|t| - 1] == [PLUS]
  }

  // ---- Refinement ----

  lemma {:induction false} SkipLevelLevels(topic: Bytes)
    ensures Levels(SkipLevel(topic)) == [[]] + Levels(topic)[1..]
    ensures SkipLevel(topic) == [] <==> |Levels(topic)| == 1
  {
    if topic != [] && topic[0] != SLASH {
      SkipLevelLevels(topic[1..]);
    }
  }

  /** Both sides losing a first level that the filter's lets pass. */
  lemma DropLevel(x: Bytes, t: seq<Bytes>, y: Bytes, f: seq<Bytes>)
    requires y != [HASH] && (y == [PLUS] || x == y)
    ensures LevelsMatch([x] + t, [y] + f) == LevelsMatch(t, f)
    ensures OnlyParent([x] + t, [y] + f) == OnlyParent(t, f)
    ensures PlusFacesEmptyEnd([x] + t, [y] + f)
         == if t == [] then x == [] && y == [PLUS] else PlusFacesEmptyEnd(t, f)
  {
    assert ([x] + t)[1..] == t && ([y] + f)[1..] == f;
    if t != [] && |t| <= |f| {
      assert ([x] + t)[|t|] == t[|t| - 1] && ([y] + f)[|t|] == f[|t| - 1];
    }
  }

  lemma LevelsOfLiteral(c: byte, s: Bytes)
    requires c != SLASH
    ensures Levels([c] + s) == [[c] + Levels(s)[0]] + Levels(s)[1..]
  {
    assert ([c] + s)[1..] == s;
  }

  lemma WellFormedTail(y: Bytes, z: Bytes, f: seq<Bytes>)
    requires WellFormedLevels([y] + f)
    requires PLUS !in z && HASH !in z
    ensures WellFormedLevels(f) && WellFormedLevels([z] + f)
  {
    forall i | 0 <= i < |f| ensures ([y] + f)[i + 1] == f[i] && ([z] + f)[i + 1] == f[i] {}
    forall i | 0 <= i < |f|
      ensures (PLUS in f[i] ==> f[i] == [PLUS]) && (HASH in f[i] ==> f[i] == [HASH] && i == |f| - 1)
    {
      assert ([y] + f)[i + 1] == f[i];
    }
  }

  ghost predicate Agrees(topic: Bytes, filter: Bytes) {
    var t, f := Levels(topic), Levels(filter);
    Matches(topic, filter) <==> LevelsMatch(t, f) && !OnlyParent(t, f) && !PlusFacesEmptyEnd(t, f)
  }

  lemma PlusStep(topic: Bytes, filter: Bytes)
    requires topic != [] && filter != [] && filter[0] == PLUS && WellFormed(filter)
    requires Agrees(SkipLevel(topic), filter[1..])
    ensures Agrees(topic, filter)
  {
    var t, f := Levels(topic), Levels(filter);
    var r := Levels(filter[1..]);
    assert f[0] == [PLUS] + r[0] && f[1..] == r[1..];
    assert PLUS in f[0];
    assert r[0] == [];
    SkipLevelLevels(topic);
    DropLevel(t[0], t[1..], [PLUS], r[1..]);
    DropLevel([], t[1..], [], r[1..]);
    assert t == [t[0]] + t[1..] && f == [[PLUS]] + r[1..] && r == [[]] + r[1..];
    assert !(t[1..] == [] && t[0] == []);
  }

  lemma LiteralStep(c: byte, topic: Bytes, filter: Bytes)
    requires c != PLUS && c != HASH && WellFormed([c] + filter)
    requires Agrees(topic, filter)
    ensures Agrees([c] + topic, [c] + filter)
  {
    var t, f := Levels(topic), Levels(filter);
    assert ([c] + topic)[1..] == topic && ([c] + filter)[1..] == filter;
    if c == SLASH {
      DropLevel([], t, [], f);
    } else {
      LevelsOfLiteral(c, topic);
      LevelsOfLiteral(c, filter);
      assert t == [t[0]] + t[1..] && f == [f[0]] + f[1..];
      var f' := Levels([c] + filter);
      assert f'[0] == [c] + f[0];
      assert PLUS !in f'[0] && HASH !in f'[0];
      assert PLUS !in f[0] && HASH !in f[0] by {
        assert forall b :: b in f[0] ==> b in [c] + f[0];
      }
      if t[0] == f[0] {
        DropLevel(t[0], t[1..], f[0], f[1..]);
        DropLevel([c] + t[0], t[1..], [c] + f[0], f[1..]);
      } else {
        assert ([c] + t[0])[1..] == t[0] && ([c] + f[0])[1..] == f[0];
      }
    }
  }

  lemma WellFormedSuffix(filter: Bytes)
    requires filter != [] && WellFormed(filter) && filter[0] != HASH
    ensures WellFormed(filter[1..])
  {
    var f, g := Levels(filter), Levels(filter[1..]);
    if filter[0] == SLASH {
      assert f == [[]] + g;
      WellFormedTail([], [], g);
    } else {
      assert f == [f[0]] + g[1..] && f[0] == [filter[0]] + g[0];
      assert PLUS !in g[0] && HASH !in g[0] by {
        assert forall b :: b in g[0] ==> b in f[0];
        assert |g[0]| > 0 ==> |f[0]| > 1;
      }
      WellFormedTail(f[0], g[0], g[1..]);
      assert g == [g[0]] + g[1..];
    }
  }

  lemma TopicEnds(filter: Bytes)
    requires filter != [] && filter[0] != HASH && WellFormed(filter)
    ensures Agrees([], filter)
  {
    var f := Levels(filter);
    assert f == [f[0]] + f[1..];
    if f[0] == [PLUS] || f[0] == [] {
      DropLevel([], [], f[0], f[1..]);
      assert [[]] + [] == Levels([]);
      if f[1..] == [] {
        assert f[0] != [];
      }
    }
  }

  lemma FirstDiffers(topic: Bytes, filter: Bytes)
    requires topic != [] && filter != [] && filter[0] != topic[0] && filter[0] != HASH && filter[0] != PLUS
    ensures Agrees(topic, filter)
  {
    var t, f := Levels(topic), Levels(filter);
    if filter[0] == SLASH {
      assert f[0] == [] && t[0] != [];
    } else {
      assert f[0][0] == filter[0];
      assert t[0] == [] || t[0][0] == topic[0];
    }
  }

  /** The refinement: for a well-formed filter and any topic, the two-index loop answers what the
      level rule does, except that it never lets `#` stand for no level at all and never lets `+`
      stand for an empty last level. */
  lemma {:induction false} MatchesRefinesLevels(topic: Bytes, filter: Bytes)
    requires WellFormed(filter)
    ensures var t, f := Levels(topic), Levels(filter);
      Matches(topic, filter) <==> LevelsMatch(t, f) && !OnlyParent(t, f) && !PlusFacesEmptyEnd(t, f)
    decreases |filter| + |topic|
  {
    if filter == [] {
    } else if filter[0] == HASH {
      assert HASH in Levels(filter)[0];
    } else if topic == [] {
      TopicEnds(filter);
    } else {
      WellFormedSuffix(filter);
      if filter[0] == PLUS {
        SkipNeverGrows(topic);
        MatchesRefinesLevels(SkipLevel(topic), filter[1..]);
        PlusStep(topic, filter);
      } else if filter[0] == topic[0] {
        MatchesRefinesLevels(topic[1..], filter[1..]);
        assert topic == [topic[0]] + topic[1..] && filter == [filter[0]] + filter[1..];
        LiteralStep(filter[0], topic[1..], filter[1..]);
      } else {
        FirstDiffers(topic, filter);
      }
    }
  }

  /** So the loop never accepts what the level rule rejects, and it agrees with the rule exactly
      when the filter is not one level longer than the topic and does not put `+` against an
      empty last level, or the rule rejects anyway. */
  lemma MatcherIsSound(topic: Bytes, filter: Bytes)
    requires WellFormed(filter)
    ensures var t, f := Levels(topic), Levels(filter);
      && (Matches(topic, filter) ==> LevelsMatch(t, f))
      && ((Matches(topic, filter) <==> LevelsMatch(t, f))
          <==> !LevelsMatch(t, f) || (|f| <= |t| && !PlusFacesEmptyEnd(t, f)))
  {
    MatchesRefinesLevels(topic, filter);
  }

  /** The two misses, on topics `a` and `a/`: section 4.7.1 lets `a/#` match the first and `a/+`
      the second, and the loop refuses both. */
  lemma LoopMisses()
    ensures var a: Bytes := [0x61];
      && WellFormed(a + [SLASH, HASH]) && LevelsMatch(Levels(a), Levels(a + [SLASH, HASH]))
      && !Matches(a, a + [SLASH, HASH])
      && WellFormed(a + [SLASH, PLUS]) && LevelsMatch(Levels(a + [SLASH]), Levels(a + [SLASH, PLUS]))
      && !Matches(a + [SLASH], a + [SLASH, PLUS])
  {
    var a: byte := 0x61;
    assert Levels([]) == [[]];
    LevelsOfLiteral(HASH, []);
    LevelsOfLiteral(PLUS, []);
    assert [HASH] + [] == [HASH] && [PLUS] + [] == [PLUS] && [a] + [] == [a] && [a] + [SLASH] == [a, SLASH];
    assert [SLASH][1..] == [] && [SLASH, HASH][1..] == [HASH] && [SLASH, PLUS][1..] == [PLUS];
    LevelsOfLiteral(a, []);
    LevelsOfLiteral(a, [SLASH]);
    LevelsOfLiteral(a, [SLASH, HASH]);
    LevelsOfLiteral(a, [SLASH, PLUS]);
    assert [a] + [SLASH, HASH] == [a, SLASH, HASH] && [a] + [SLASH, PLUS] == [a, SLASH, PLUS];
    assert Levels([a, SLASH, HASH]) == [[a], [HASH]] && Levels([a, SLASH, PLUS]) == [[a], [PLUS]];
    MatchesRefinesLevels([a], [a, SLASH, HASH]);
    MatchesRefinesLevels([a, SLASH], [a, SLASH, PLUS]);
  }

  // ---- The same in bytes: 0x2F is '/', 0x2B is '+', 0x23 is '#' ----

  /** A level is what lies before the first `/`. */
  lemma {:induction false} LevelsSplit(a: Bytes, s: Bytes)
    requires 0x2F !in a
    ensures Levels(a + [0x2F] + s) == [a] + Levels(s)
    ensures Levels(a) == [a]
  {
    if a == [] {
      assert a + [0x2F] + s == [0x2F] + s && ([0x2F] + s)[1..] == s;
    } else {
      LevelsSplit(a[1..], s);
      var all, rest := a + [0x2F] + s, a[1..] + [0x2F] + s;
      assert all[0] == a[0] && all[1..] == rest;
      assert Levels(rest) == [a[1..]] + Levels(s) && Levels(rest)[1..] == Levels(s);
      assert [a[0]] + a[1..] == a;
      assert Levels(all) == [[a[0]] + a[1..]] + Levels(s);
    }
  }

  lemma TwoLevels(a: Bytes, b: Bytes)
    requires 0x2F !in a && 0x2F !in b
    ensures Levels(a + [0x2F] + b) == [a, b]
  {
    LevelsSplit(a, b);
    LevelsSplit(b, []);
  }

  /** A filter without wildcards matches itself and nothing else. */
  lemma {:induction false} LiteralMatchesItself(topic: Bytes, filter: Bytes)
    requires 0x2B !in filter && 0x23 !in filter
    ensures Matches(topic, filter) <==> topic == filter
  {
    if topic != [] && filter != [] {
      LiteralMatchesItself(topic[1..], filter[1..]);
      assert topic == [topic[0]] + topic[1..] && filter == [filter[0]] + filter[1..];
    }
  }

  /** `#` matches everything, and after `s/` everything below `s`. */
  lemma {:induction false} HashMatchesBelow(topic: Bytes, s: Bytes)
    requires 0x2B !in s && 0x23 !in s
    ensures Matches(topic, [0x23])
    ensures Matches(topic, s + [0x2F, 0x23]) <==> s + [0x2F] <= topic
  {
    if s == [] {
      assert s + [0x2F, 0x23] == [0x2F, 0x23] && [0x2F, 0x23][1..] == [0x23] && s + [0x2F] == [0x2F];
      assert topic != [] ==> Matches(topic[1..], [0x23]);
    } else {
      var f := s + [0x2F, 0x23];
      assert f[1..] == s[1..] + [0x2F, 0x23] && (s + [0x2F])[1..] == s[1..] + [0x2F];
      if topic != [] {
        HashMatchesBelow(topic[1..], s[1..]);
        assert topic == [topic[0]] + topic[1..] && s + [0x2F] == [s[0]] + (s[1..] + [0x2F]);
      }
    }
  }

  /** Up to the next `/`, or all of it. */
  lemma {:induction false} SkipsToSlash(topic: Bytes)
    ensures exists a :: 0x2F !in a && topic == a + SkipLevel(topic)
    ensures SkipLevel(topic) == [] || SkipLevel(topic)[0] == 0x2F
  {
    if topic != [] && topic[0] != 0x2F {
      SkipsToSlash(topic[1..]);
      var a :| 0x2F !in a && topic[1..] == a + SkipLevel(topic[1..]);
      assert topic == ([topic[0]] + a) + SkipLevel(topic);
      assert 0x2F !in [topic[0]] + a;
    } else {
      assert topic == [] + SkipLevel(topic);
    }
  }

  lemma {:induction false} SkipsLevel(a: Bytes, rest: Bytes)
    requires 0x2F !in a && (rest == [] || rest[0] == 0x2F)
    ensures SkipLevel(a + rest) == rest
  {
    if a == [] {
      assert a + rest == rest;
    } else {
      SkipsLevel(a[1..], rest);
      assert (a + rest)[1..] == a[1..] + rest;
    }
  }

  /** `+` alone matches one level that is not the empty topic. */
  lemma PlusMatchesOneLevel(topic: Bytes)
    ensures Matches(topic, [0x2B]) <==> topic != [] && 0x2F !in topic
  {
    var rest := SkipLevel(topic);
    assert [0x2B][1..] == [];
    SkipsToSlash(topic);
    var b :| 0x2F !in b && topic == b + rest;
    if rest != [] {
      assert topic[|b|] == 0x2F;
    } else {
      assert topic == b;
    }
  }

  lemma PlusThenLiteral(topic: Bytes, s: Bytes)
    requires 0x2B !in s && 0x23 !in s
    ensures Matches(topic, [0x2B, 0x2F] + s) <==> topic != [] && SkipLevel(topic) == [0x2F] + s
  {
    var f := [0x2B, 0x2F] + s;
    assert f[0] == 0x2B && f[1..] == [0x2F] + s;
    LiteralMatchesItself(SkipLevel(topic), [0x2F] + s);
  }

  /** And before `/s` it matches one level, the empty one included, then `/s`. */
  lemma PlusMatchesBefore(topic: Bytes, s: Bytes)
    requires 0x2B !in s && 0x23 !in s
    ensures Matches(topic, [0x2B, 0x2F] + s) <==> exists a :: 0x2F !in a && topic == a + [0x2F] + s
  {
    hide Matches;
    hide SkipLevel;
    PlusThenLiteral(topic, s);
    if topic != [] && SkipLevel(topic) == [0x2F] + s {
      SkipsToSlash(topic);
      var b :| 0x2F !in b && topic == b + SkipLevel(topic);
      assert topic == b + [0x2F] + s;
    }
    if a :| 0x2F !in a && topic == a + [0x2F] + s {
      assert topic == a + ([0x2F] + s);
      SkipsLevel(a, [0x2F] + s);
    }
  }

  /** So `+/b` matches `a/b`, and `a.b` is one level. */
  lemma MatchesInBytes()
    ensures Matches([0x61, 0x2F, 0x62], [0x2B, 0x2F, 0x62])
    ensures Matches([0x61, 0x2F, 0x62], [0x61, 0x2F, 0x23])
    ensures Matches([0x61, 0x2E, 0x62], [0x2B]) && !Matches([0x61, 0x2F, 0x62], [0x2B])
  {
    PlusMatchesBefore([0x61, 0x2F, 0x62], [0x62]);
    assert [0x61, 0x2F, 0x62] == [0x61] + [0x2F] + [0x62] && [0x2B, 0x2F, 0x62] == [0x2B, 0x2F] + [0x62];
    HashMatchesBelow([0x61, 0x2F, 0x62], [0x61]);
    assert [0x61] + [0x2F, 0x23] == [0x61, 0x2F, 0x23];
    PlusMatchesOneLevel([0x61, 0x2E, 0x62]);
    PlusMatchesOneLevel([0x61, 0x2F, 0x62]);
    assert [0x61, 0x2F, 0x62][1] == 0x2F;
  }
}
