/** The rule tables of the nine quarter turns, checked against the geometry: each
    table has pairwise disjoint sources, matches exactly the stickers of one layer
    and sends each of them where a quarter turn of that layer takes it. */
module TableTurns {
  import opened Facelets
  import opened Geometry
  import opened Notation
  import opened Applier

  /** A quarter turn (or its inverse, `quarters == 3`) of one layer of one axis. */
  datatype Quarter = Quarter(axis: Axis, layer: Coord, quarters: nat)

  function QuarterMove(t: Quarter, q: Position): Position {
    Turn(t.axis, {t.layer}, t.quarters, q)
  }

  /** Sources pairwise disjoint within rules lo..hi-1. */
  ghost predicate SourcesDisjointIn(rules: seq<Rule>, lo: int, hi: int)
    requires 0 <= lo <= hi <= |rules|
  {
    forall i, j :: lo <= i < j < hi ==> Disjoint(rules[i].source, rules[j].source)
  }

  /** Every source of lo..mid-1 is disjoint from every source of mid..hi-1. */
  ghost predicate DisjointAcross(rules: seq<Rule>, lo: int, mid: int, hi: int)
    requires 0 <= lo <= mid <= hi <= |rules|
  {
    forall i, j :: lo <= i < mid <= j < hi ==> Disjoint(rules[i].source, rules[j].source)
  }

  lemma JoinDisjoint(rules: seq<Rule>, lo: int, mid: int, hi: int)
    requires 0 <= lo <= mid <= hi <= |rules|
    requires SourcesDisjointIn(rules, lo, mid) && SourcesDisjointIn(rules, mid, hi)
    requires DisjointAcross(rules, lo, mid, hi)
    ensures SourcesDisjointIn(rules, lo, hi)
  {
  }

  /** Every rule matches only stickers of the turning layer and sends them where the
      turn does. */
  ghost predicate AgreesWith(rules: seq<Rule>, t: Quarter) {
    forall k, q :: 0 <= k < |rules| && Matches(rules[k].source, q) ==>
      LayerOf(t.axis, q) == t.layer && Relocate(rules[k].destination, q) == QuarterMove(t, q)
  }

  /** Rules lo..hi-1 each match only stickers of the turning layer and send them where
      the turn does. */
  ghost predicate AgreesIn(rules: seq<Rule>, t: Quarter, lo: int, hi: int)
    requires 0 <= lo <= hi <= |rules|
  {
    forall k, q :: lo <= k < hi && Matches(rules[k].source, q) ==>
      LayerOf(t.axis, q) == t.layer && Relocate(rules[k].destination, q) == QuarterMove(t, q)
  }

  lemma AgreesJoin(rules: seq<Rule>, t: Quarter, lo: int, mid: int, hi: int)
    requires 0 <= lo <= mid <= hi <= |rules|
    requires AgreesIn(rules, t, lo, mid) && AgreesIn(rules, t, mid, hi)
    ensures AgreesIn(rules, t, lo, hi)
  {
  }

  lemma AgreesAll(rules: seq<Rule>, t: Quarter)
    requires AgreesIn(rules, t, 0, |rules|)
    ensures AgreesWith(rules, t)
  {
  }

  /** Every sticker of the turning layer is matched by some rule. */
  ghost predicate CoversLayer(rules: seq<Rule>, t: Quarter) {
    forall q :: LayerOf(t.axis, q) == t.layer ==> Touches(rules, q)
  }

  /** A pass over `rules` is the quarter turn `t`, and a rule matches exactly the
      stickers of the turning layer (including the fixed centre). */
  ghost predicate IsQuarterTurn(rules: seq<Rule>, t: Quarter) {
    (forall q :: Scan(rules, q) == QuarterMove(t, q)) &&
    (forall q :: Touches(rules, q) <==> LayerOf(t.axis, q) == t.layer)
  }

  lemma TableIsTurn(rules: seq<Rule>, t: Quarter)
    requires SourcesDisjointIn(rules, 0, |rules|)
    requires AgreesWith(rules, t)
    requires CoversLayer(rules, t)
    ensures SourcesDisjoint(rules)
    ensures IsQuarterTurn(rules, t)
  {
    forall q
      ensures Scan(rules, q) == QuarterMove(t, q)
    {
      if Touches(rules, q) {
        var k :| 0 <= k < |rules| && Matches(rules[k].source, q);
        ScanUnique(rules, k, q);
      } else {
        ScanUntouched(rules, q);
      }
    }
  }

  lemma UDisjoint0_4()
    ensures SourcesDisjointIn(URules(), 0, 4)
  {
  }

  lemma UDisjoint4_8()
    ensures SourcesDisjointIn(URules(), 4, 8)
  {
  }

  lemma UDisjointAcross0_4_8()
    ensures DisjointAcross(URules(), 0, 4, 8)
  {
  }

  lemma UDisjoint8_12()
    ensures SourcesDisjointIn(URules(), 8, 12)
  {
  }

  lemma UDisjointAcross0_8_12()
    ensures DisjointAcross(URules(), 0, 8, 12)
  {
  }

  lemma UDisjoint12_13()
    ensures SourcesDisjointIn(URules(), 12, 13)
  {
  }

  lemma UDisjointAcross0_12_13()
    ensures DisjointAcross(URules(), 0, 12, 13)
  {
  }

  lemma UAgrees0_3()
    ensures AgreesIn(URules(), Quarter(YAxis, Pos, 1), 0, 3)
  {
    var T := URules();
    forall k, q | 0 <= k < 3 && Matches(T[k].source, q)
      ensures LayerOf(YAxis, q) == Pos && Relocate(T[k].destination, q) == QuarterMove(Quarter(YAxis, Pos, 1), q)
    {
      if k == 0 {
        assert q == Position(U, Top, Left);
      } else if k == 1 {
        assert q == Position(U, Top, Center);
      } else {
        assert q == Position(U, Top, Right);
      }
    }
  }

  lemma UAgrees3_6()
    ensures AgreesIn(URules(), Quarter(YAxis, Pos, 1), 3, 6)
  {
    var T := URules();
    forall k, q | 3 <= k < 6 && Matches(T[k].source, q)
      ensures LayerOf(YAxis, q) == Pos && Relocate(T[k].destination, q) == QuarterMove(Quarter(YAxis, Pos, 1), q)
    {
      if k == 3 {
        assert q == Position(U, Middle, Right);
      } else if k == 4 {
        assert q == Position(U, Bottom, Right);
      } else {
        assert q == Position(U, Bottom, Center);
      }
    }
  }

  lemma UAgrees6_9()
    ensures AgreesIn(URules(), Quarter(YAxis, Pos, 1), 6, 9)
  {
    var T := URules();
    forall k, q | 6 <= k < 9 && Matches(T[k].source, q)
      ensures LayerOf(YAxis, q) == Pos && Relocate(T[k].destination, q) == QuarterMove(Quarter(YAxis, Pos, 1), q)
    {
      if k == 6 {
        assert q == Position(U, Bottom, Left);
      } else if k == 7 {
        assert q == Position(U, Middle, Left);
      } else {
        assert q == Position(U, Middle, Center);
      }
    }
  }

  lemma UAgrees9_12()
    ensures AgreesIn(URules(), Quarter(YAxis, Pos, 1), 9, 12)
  {
    var T := URules();
    forall k, q | 9 <= k < 12 && Matches(T[k].source, q)
      ensures LayerOf(YAxis, q) == Pos && Relocate(T[k].destination, q) == QuarterMove(Quarter(YAxis, Pos, 1), q)
    {
      if k == 9 {
        if q.hPos == Left {
          assert q == Position(F, Top, Left);
        } else if q.hPos == Center {
          assert q == Position(F, Top, Center);
        } else {
          assert q == Position(F, Top, Right);
        }
      } else if k == 10 {
        if q.hPos == Left {
          assert q == Position(L, Top, Left);
        } else if q.hPos == Center {
          assert q == Position(L, Top, Center);
        } else {
          assert q == Position(L, Top, Right);
        }
      } else {
        if q.hPos == Left {
          assert q == Position(B, Top, Left);
        } else if q.hPos == Center {
          assert q == Position(B, Top, Center);
        } else {
          assert q == Position(B, Top, Right);
        }
      }
    }
  }

  lemma UAgrees12_13()
    ensures AgreesIn(URules(), Quarter(YAxis, Pos, 1), 12, 13)
  {
    var T := URules();
    forall k, q | 12 <= k < 13 && Matches(T[k].source, q)
      ensures LayerOf(YAxis, q) == Pos && Relocate(T[k].destination, q) == QuarterMove(Quarter(YAxis, Pos, 1), q)
    {
      if q.hPos == Left {
        assert q == Position(R, Top, Left);
      } else if q.hPos == Center {
        assert q == Position(R, Top, Center);
      } else {
        assert q == Position(R, Top, Right);
      }
    }
  }

  lemma UAgrees()
    ensures AgreesWith(URules(), Quarter(YAxis, Pos, 1))
  {
    var T, t := URules(), Quarter(YAxis, Pos, 1);
    UAgrees0_3();
    UAgrees3_6();
    AgreesJoin(T, t, 0, 3, 6);
    UAgrees6_9();
    AgreesJoin(T, t, 0, 6, 9);
    UAgrees9_12();
    AgreesJoin(T, t, 0, 9, 12);
    UAgrees12_13();
    AgreesJoin(T, t, 0, 12, 13);
    AgreesAll(T, t);
  }

  lemma UCovers()
    ensures CoversLayer(URules(), Quarter(YAxis, Pos, 1))
  {
    var T := URules();
    assert T == [T[0], T[1], T[2], T[3], T[4], T[5], T[6], T[7], T[8], T[9], T[10], T[11], T[12]];
  }

  /** The rules of U (scary-cube.js:13-27) have pairwise disjoint sources and perform
      the quarter turn U. */
  lemma UIsQuarterTurn()
    ensures SourcesDisjoint(URules())
    ensures IsQuarterTurn(URules(), Quarter(YAxis, Pos, 1))
  {
    var T := URules();
    UDisjoint0_4();
    UDisjoint4_8();
    UDisjointAcross0_4_8();
    JoinDisjoint(T, 0, 4, 8);
    UDisjoint8_12();
    UDisjointAcross0_8_12();
    JoinDisjoint(T, 0, 8, 12);
    UDisjoint12_13();
    UDisjointAcross0_12_13();
    JoinDisjoint(T, 0, 12, 13);
    UAgrees();
    UCovers();
    TableIsTurn(T, Quarter(YAxis, Pos, 1));
  }

  lemma DDisjoint0_4()
    ensures SourcesDisjointIn(DRules(), 0, 4)
  {
  }

  lemma DDisjoint4_8()
    ensures SourcesDisjointIn(DRules(), 4, 8)
  {
  }

  lemma DDisjointAcross0_4_8()
    ensures DisjointAcross(DRules(), 0, 4, 8)
  {
  }

  lemma DDisjoint8_12()
    ensures SourcesDisjointIn(DRules(), 8, 12)
  {
  }

  lemma DDisjointAcross0_8_12()
    ensures DisjointAcross(DRules(), 0, 8, 12)
  {
  }

  lemma DDisjoint12_13()
    ensures SourcesDisjointIn(DRules(), 12, 13)
  {
  }

  lemma DDisjointAcross0_12_13()
    ensures DisjointAcross(DRules(), 0, 12, 13)
  {
  }

  lemma DAgrees0_3()
    ensures AgreesIn(DRules(), Quarter(YAxis, Neg, 3), 0, 3)
  {
    var T := DRules();
    forall k, q | 0 <= k < 3 && Matches(T[k].source, q)
      ensures LayerOf(YAxis, q) == Neg && Relocate(T[k].destination, q) == QuarterMove(Quarter(YAxis, Neg, 3), q)
    {
      if k == 0 {
        assert q == Position(D, Top, Left);
      } else if k == 1 {
        assert q == Position(D, Top, Center);
      } else {
        assert q == Position(D, Top, Right);
      }
    }
  }

  lemma DAgrees3_6()
    ensures AgreesIn(DRules(), Quarter(YAxis, Neg, 3), 3, 6)
  {
    var T := DRules();
    forall k, q | 3 <= k < 6 && Matches(T[k].source, q)
      ensures LayerOf(YAxis, q) == Neg && Relocate(T[k].destination, q) == QuarterMove(Quarter(YAxis, Neg, 3), q)
    {
      if k == 3 {
        assert q == Position(D, Middle, Right);
      } else if k == 4 {
        assert q == Position(D, Bottom, Right);
      } else {
        assert q == Position(D, Bottom, Center);
      }
    }
  }

  lemma DAgrees6_9()
    ensures AgreesIn(DRules(), Quarter(YAxis, Neg, 3), 6, 9)
  {
    var T := DRules();
    forall k, q | 6 <= k < 9 && Matches(T[k].source, q)
      ensures LayerOf(YAxis, q) == Neg && Relocate(T[k].destination, q) == QuarterMove(Quarter(YAxis, Neg, 3), q)
    {
      if k == 6 {
        assert q == Position(D, Bottom, Left);
      } else if k == 7 {
        assert q == Position(D, Middle, Left);
      } else {
        assert q == Position(D, Middle, Center);
      }
    }
  }

  lemma DAgrees9_12()
    ensures AgreesIn(DRules(), Quarter(YAxis, Neg, 3), 9, 12)
  {
    var T := DRules();
    forall k, q | 9 <= k < 12 && Matches(T[k].source, q)
      ensures LayerOf(YAxis, q) == Neg && Relocate(T[k].destination, q) == QuarterMove(Quarter(YAxis, Neg, 3), q)
    {
      if k == 9 {
        if q.hPos == Left {
          assert q == Position(F, Bottom, Left);
        } else if q.hPos == Center {
          assert q == Position(F, Bottom, Center);
        } else {
          assert q == Position(F, Bottom, Right);
        }
      } else if k == 10 {
        if q.hPos == Left {
          assert q == Position(L, Bottom, Left);
        } else if q.hPos == Center {
          assert q == Position(L, Bottom, Center);
        } else {
          assert q == Position(L, Bottom, Right);
        }
      } else {
        if q.hPos == Left {
          assert q == Position(B, Bottom, Left);
        } else if q.hPos == Center {
          assert q == Position(B, Bottom, Center);
        } else {
          assert q == Position(B, Bottom, Right);
        }
      }
    }
  }

  lemma DAgrees12_13()
    ensures AgreesIn(DRules(), Quarter(YAxis, Neg, 3), 12, 13)
  {
    var T := DRules();
    forall k, q | 12 <= k < 13 && Matches(T[k].source, q)
      ensures LayerOf(YAxis, q) == Neg && Relocate(T[k].destination, q) == QuarterMove(Quarter(YAxis, Neg, 3), q)
    {
      if q.hPos == Left {
        assert q == Position(R, Bottom, Left);
      } else if q.hPos == Center {
        assert q == Position(R, Bottom, Center);
      } else {
        assert q == Position(R, Bottom, Right);
      }
    }
  }

  lemma DAgrees()
    ensures AgreesWith(DRules(), Quarter(YAxis, Neg, 3))
  {
    var T, t := DRules(), Quarter(YAxis, Neg, 3);
    DAgrees0_3();
    DAgrees3_6();
    AgreesJoin(T, t, 0, 3, 6);
    DAgrees6_9();
    AgreesJoin(T, t, 0, 6, 9);
    DAgrees9_12();
    AgreesJoin(T, t, 0, 9, 12);
    DAgrees12_13();
    AgreesJoin(T, t, 0, 12, 13);
    AgreesAll(T, t);
  }

  lemma DCovers()
    ensures CoversLayer(DRules(), Quarter(YAxis, Neg, 3))
  {
    var T := DRules();
    assert T == [T[0], T[1], T[2], T[3], T[4], T[5], T[6], T[7], T[8], T[9], T[10], T[11], T[12]];
  }

  /** The rules of D (scary-cube.js:29-43) have pairwise disjoint sources and perform
      the quarter turn D. */
  lemma DIsQuarterTurn()
    ensures SourcesDisjoint(DRules())
    ensures IsQuarterTurn(DRules(), Quarter(YAxis, Neg, 3))
  {
    var T := DRules();
    DDisjoint0_4();
    DDisjoint4_8();
    DDisjointAcross0_4_8();
    JoinDisjoint(T, 0, 4, 8);
    DDisjoint8_12();
    DDisjointAcross0_8_12();
    JoinDisjoint(T, 0, 8, 12);
    DDisjoint12_13();
    DDisjointAcross0_12_13();
    JoinDisjoint(T, 0, 12, 13);
    DAgrees();
    DCovers();
    TableIsTurn(T, Quarter(YAxis, Neg, 3));
  }

  lemma RDisjoint0_4()
    ensures SourcesDisjointIn(RRules(), 0, 4)
  {
  }

  lemma RDisjoint4_8()
    ensures SourcesDisjointIn(RRules(), 4, 8)
  {
  }

  lemma RDisjointAcross0_4_8()
    ensures DisjointAcross(RRules(), 0, 4, 8)
  {
  }

  lemma RDisjoint8_12()
    ensures SourcesDisjointIn(RRules(), 8, 12)
  {
  }

  lemma RDisjointAcross0_8_12()
    ensures DisjointAcross(RRules(), 0, 8, 12)
  {
  }

  lemma RDisjoint12_16()
    ensures SourcesDisjointIn(RRules(), 12, 16)
  {
  }

  lemma RDisjointAcross0_12_16()
    ensures DisjointAcross(RRules(), 0, 12, 16)
  {
  }

  lemma RDisjoint16_17()
    ensures SourcesDisjointIn(RRules(), 16, 17)
  {
  }

  lemma RDisjointAcross0_16_17()
    ensures DisjointAcross(RRules(), 0, 16, 17)
  {
  }

  lemma RAgrees0_3()
    ensures AgreesIn(RRules(), Quarter(XAxis, Pos, 1), 0, 3)
  {
    var T := RRules();
    forall k, q | 0 <= k < 3 && Matches(T[k].source, q)
      ensures LayerOf(XAxis, q) == Pos && Relocate(T[k].destination, q) == QuarterMove(Quarter(XAxis, Pos, 1), q)
    {
      if k == 0 {
        assert q == Position(R, Top, Left);
      } else if k == 1 {
        assert q == Position(R, Top, Center);
      } else {
        assert q == Position(R, Top, Right);
      }
    }
  }

  lemma RAgrees3_6()
    ensures AgreesIn(RRules(), Quarter(XAxis, Pos, 1), 3, 6)
  {
    var T := RRules();
    forall k, q | 3 <= k < 6 && Matches(T[k].source, q)
      ensures LayerOf(XAxis, q) == Pos && Relocate(T[k].destination, q) == QuarterMove(Quarter(XAxis, Pos, 1), q)
    {
      if k == 3 {
        assert q == Position(R, Middle, Right);
      } else if k == 4 {
        assert q == Position(R, Bottom, Right);
      } else {
        assert q == Position(R, Bottom, Center);
      }
    }
  }

  lemma RAgrees6_9()
    ensures AgreesIn(RRules(), Quarter(XAxis, Pos, 1), 6, 9)
  {
    var T := RRules();
    forall k, q | 6 <= k < 9 && Matches(T[k].source, q)
      ensures LayerOf(XAxis, q) == Pos && Relocate(T[k].destination, q) == QuarterMove(Quarter(XAxis, Pos, 1), q)
    {
      if k == 6 {
        assert q == Position(R, Bottom, Left);
      } else if k == 7 {
        assert q == Position(R, Middle, Left);
      } else {
        assert q == Position(R, Middle, Center);
      }
    }
  }

  lemma RAgrees9_12()
    ensures AgreesIn(RRules(), Quarter(XAxis, Pos, 1), 9, 12)
  {
    var T := RRules();
    forall k, q | 9 <= k < 12 && Matches(T[k].source, q)
      ensures LayerOf(XAxis, q) == Pos && Relocate(T[k].destination, q) == QuarterMove(Quarter(XAxis, Pos, 1), q)
    {
      if k == 9 {
        if q.vPos == Top {
          assert q == Position(F, Top, Right);
        } else if q.vPos == Middle {
          assert q == Position(F, Middle, Right);
        } else {
          assert q == Position(F, Bottom, Right);
        }
      } else if k == 10 {
        if q.vPos == Top {
          assert q == Position(D, Top, Right);
        } else if q.vPos == Middle {
          assert q == Position(D, Middle, Right);
        } else {
          assert q == Position(D, Bottom, Right);
        }
      } else {
        assert q == Position(U, Top, Right);
      }
    }
  }

  lemma RAgrees12_15()
    ensures AgreesIn(RRules(), Quarter(XAxis, Pos, 1), 12, 15)
  {
    var T := RRules();
    forall k, q | 12 <= k < 15 && Matches(T[k].source, q)
      ensures LayerOf(XAxis, q) == Pos && Relocate(T[k].destination, q) == QuarterMove(Quarter(XAxis, Pos, 1), q)
    {
      if k == 12 {
        assert q == Position(U, Middle, Right);
      } else if k == 13 {
        assert q == Position(U, Bottom, Right);
      } else {
        assert q == Position(B, Top, Left);
      }
    }
  }

  lemma RAgrees15_17()
    ensures AgreesIn(RRules(), Quarter(XAxis, Pos, 1), 15, 17)
  {
    var T := RRules();
    forall k, q | 15 <= k < 17 && Matches(T[k].source, q)
      ensures LayerOf(XAxis, q) == Pos && Relocate(T[k].destination, q) == QuarterMove(Quarter(XAxis, Pos, 1), q)
    {
      if k == 15 {
        assert q == Position(B, Middle, Left);
      } else {
        assert q == Position(B, Bottom, Left);
      }
    }
  }

  lemma RAgrees()
    ensures AgreesWith(RRules(), Quarter(XAxis, Pos, 1))
  {
    var T, t := RRules(), Quarter(XAxis, Pos, 1);
    RAgrees0_3();
    RAgrees3_6();
    AgreesJoin(T, t, 0, 3, 6);
    RAgrees6_9();
    AgreesJoin(T, t, 0, 6, 9);
    RAgrees9_12();
    AgreesJoin(T, t, 0, 9, 12);
    RAgrees12_15();
    AgreesJoin(T, t, 0, 12, 15);
    RAgrees15_17();
    AgreesJoin(T, t, 0, 15, 17);
    AgreesAll(T, t);
  }

  lemma RCovers()
    ensures CoversLayer(RRules(), Quarter(XAxis, Pos, 1))
  {
    var T := RRules();
    assert T == [T[0], T[1], T[2], T[3], T[4], T[5], T[6], T[7], T[8], T[9], T[10], T[11], T[12], T[13], T[14], T[15], T[16]];
  }

  /** The rules of R (scary-cube.js:45-63) have pairwise disjoint sources and perform
      the quarter turn R. */
  lemma RIsQuarterTurn()
    ensures SourcesDisjoint(RRules())
    ensures IsQuarterTurn(RRules(), Quarter(XAxis, Pos, 1))
  {
    var T := RRules();
    RDisjoint0_4();
    RDisjoint4_8();
    RDisjointAcross0_4_8();
    JoinDisjoint(T, 0, 4, 8);
    RDisjoint8_12();
    RDisjointAcross0_8_12();
    JoinDisjoint(T, 0, 8, 12);
    RDisjoint12_16();
    RDisjointAcross0_12_16();
    JoinDisjoint(T, 0, 12, 16);
    RDisjoint16_17();
    RDisjointAcross0_16_17();
    JoinDisjoint(T, 0, 16, 17);
    RAgrees();
    RCovers();
    TableIsTurn(T, Quarter(XAxis, Pos, 1));
  }

  lemma LDisjoint0_4()
    ensures SourcesDisjointIn(LRules(), 0, 4)
  {
  }

  lemma LDisjoint4_8()
    ensures SourcesDisjointIn(LRules(), 4, 8)
  {
  }

  lemma LDisjointAcross0_4_8()
    ensures DisjointAcross(LRules(), 0, 4, 8)
  {
  }

  lemma LDisjoint8_12()
    ensures SourcesDisjointIn(LRules(), 8, 12)
  {
  }

  lemma LDisjointAcross0_8_12()
    ensures DisjointAcross(LRules(), 0, 8, 12)
  {
  }

  lemma LDisjoint12_16()
    ensures SourcesDisjointIn(LRules(), 12, 16)
  {
  }

  lemma LDisjointAcross0_12_16()
    ensures DisjointAcross(LRules(), 0, 12, 16)
  {
  }

  lemma LDisjoint16_17()
    ensures SourcesDisjointIn(LRules(), 16, 17)
  {
  }

  lemma LDisjointAcross0_16_17()
    ensures DisjointAcross(LRules(), 0, 16, 17)
  {
  }

  lemma LAgrees0_3()
    ensures AgreesIn(LRules(), Quarter(XAxis, Neg, 3), 0, 3)
  {
    var T := LRules();
    forall k, q | 0 <= k < 3 && Matches(T[k].source, q)
      ensures LayerOf(XAxis, q) == Neg && Relocate(T[k].destination, q) == QuarterMove(Quarter(XAxis, Neg, 3), q)
    {
      if k == 0 {
        assert q == Position(L, Top, Left);
      } else if k == 1 {
        assert q == Position(L, Top, Center);
      } else {
        assert q == Position(L, Top, Right);
      }
    }
  }

  lemma LAgrees3_6()
    ensures AgreesIn(LRules(), Quarter(XAxis, Neg, 3), 3, 6)
  {
    var T := LRules();
    forall k, q | 3 <= k < 6 && Matches(T[k].source, q)
      ensures LayerOf(XAxis, q) == Neg && Relocate(T[k].destination, q) == QuarterMove(Quarter(XAxis, Neg, 3), q)
    {
      if k == 3 {
        assert q == Position(L, Middle, Right);
      } else if k == 4 {
        assert q == Position(L, Bottom, Right);
      } else {
        assert q == Position(L, Bottom, Center);
      }
    }
  }

  lemma LAgrees6_9()
    ensures AgreesIn(LRules(), Quarter(XAxis, Neg, 3), 6, 9)
  {
    var T := LRules();
    forall k, q | 6 <= k < 9 && Matches(T[k].source, q)
      ensures LayerOf(XAxis, q) == Neg && Relocate(T[k].destination, q) == QuarterMove(Quarter(XAxis, Neg, 3), q)
    {
      if k == 6 {
        assert q == Position(L, Bottom, Left);
      } else if k == 7 {
        assert q == Position(L, Middle, Left);
      } else {
        assert q == Position(L, Middle, Center);
      }
    }
  }

  lemma LAgrees9_12()
    ensures AgreesIn(LRules(), Quarter(XAxis, Neg, 3), 9, 12)
  {
    var T := LRules();
    forall k, q | 9 <= k < 12 && Matches(T[k].source, q)
      ensures LayerOf(XAxis, q) == Neg && Relocate(T[k].destination, q) == QuarterMove(Quarter(XAxis, Neg, 3), q)
    {
      if k == 9 {
        if q.vPos == Top {
          assert q == Position(F, Top, Left);
        } else if q.vPos == Middle {
          assert q == Position(F, Middle, Left);
        } else {
          assert q == Position(F, Bottom, Left);
        }
      } else if k == 10 {
        if q.vPos == Top {
          assert q == Position(U, Top, Left);
        } else if q.vPos == Middle {
          assert q == Position(U, Middle, Left);
        } else {
          assert q == Position(U, Bottom, Left);
        }
      } else {
        assert q == Position(D, Top, Left);
      }
    }
  }

  lemma LAgrees12_15()
    ensures AgreesIn(LRules(), Quarter(XAxis, Neg, 3), 12, 15)
  {
    var T := LRules();
    forall k, q | 12 <= k < 15 && Matches(T[k].source, q)
      ensures LayerOf(XAxis, q) == Neg && Relocate(T[k].destination, q) == QuarterMove(Quarter(XAxis, Neg, 3), q)
    {
      if k == 12 {
        assert q == Position(D, Middle, Left);
      } else if k == 13 {
        assert q == Position(D, Bottom, Left);
      } else {
        assert q == Position(B, Top, Right);
      }
    }
  }

  lemma LAgrees15_17()
    ensures AgreesIn(LRules(), Quarter(XAxis, Neg, 3), 15, 17)
  {
    var T := LRules();
    forall k, q | 15 <= k < 17 && Matches(T[k].source, q)
      ensures LayerOf(XAxis, q) == Neg && Relocate(T[k].destination, q) == QuarterMove(Quarter(XAxis, Neg, 3), q)
    {
      if k == 15 {
        assert q == Position(B, Middle, Right);
      } else {
        assert q == Position(B, Bottom, Right);
      }
    }
  }

  lemma LAgrees()
    ensures AgreesWith(LRules(), Quarter(XAxis, Neg, 3))
  {
    var T, t := LRules(), Quarter(XAxis, Neg, 3);
    LAgrees0_3();
    LAgrees3_6();
    AgreesJoin(T, t, 0, 3, 6);
    LAgrees6_9();
    AgreesJoin(T, t, 0, 6, 9);
    LAgrees9_12();
    AgreesJoin(T, t, 0, 9, 12);
    LAgrees12_15();
    AgreesJoin(T, t, 0, 12, 15);
    LAgrees15_17();
    AgreesJoin(T, t, 0, 15, 17);
    AgreesAll(T, t);
  }

  lemma LCovers()
    ensures CoversLayer(LRules(), Quarter(XAxis, Neg, 3))
  {
    var T := LRules();
    assert T == [T[0], T[1], T[2], T[3], T[4], T[5], T[6], T[7], T[8], T[9], T[10], T[11], T[12], T[13], T[14], T[15], T[16]];
  }

  /** The rules of L (scary-cube.js:65-83) have pairwise disjoint sources and perform
      the quarter turn L. */
  lemma LIsQuarterTurn()
    ensures SourcesDisjoint(LRules())
    ensures IsQuarterTurn(LRules(), Quarter(XAxis, Neg, 3))
  {
    var T := LRules();
    LDisjoint0_4();
    LDisjoint4_8();
    LDisjointAcross0_4_8();
    JoinDisjoint(T, 0, 4, 8);
    LDisjoint8_12();
    LDisjointAcross0_8_12();
    JoinDisjoint(T, 0, 8, 12);
    LDisjoint12_16();
    LDisjointAcross0_12_16();
    JoinDisjoint(T, 0, 12, 16);
    LDisjoint16_17();
    LDisjointAcross0_16_17();
    JoinDisjoint(T, 0, 16, 17);
    LAgrees();
    LCovers();
    TableIsTurn(T, Quarter(XAxis, Neg, 3));
  }

  lemma FDisjoint0_4()
    ensures SourcesDisjointIn(FRules(), 0, 4)
  {
  }

  lemma FDisjoint4_8()
    ensures SourcesDisjointIn(FRules(), 4, 8)
  {
  }

  lemma FDisjointAcross0_4_8()
    ensures DisjointAcross(FRules(), 0, 4, 8)
  {
  }

  lemma FDisjoint8_12()
    ensures SourcesDisjointIn(FRules(), 8, 12)
  {
  }

  lemma FDisjointAcross0_8_12()
    ensures DisjointAcross(FRules(), 0, 8, 12)
  {
  }

  lemma FDisjoint12_16()
    ensures SourcesDisjointIn(FRules(), 12, 16)
  {
  }

  lemma FDisjointAcross0_12_16()
    ensures DisjointAcross(FRules(), 0, 12, 16)
  {
  }

  lemma FDisjoint16_20()
    ensures SourcesDisjointIn(FRules(), 16, 20)
  {
  }

  lemma FDisjointAcross0_16_20()
    ensures DisjointAcross(FRules(), 0, 16, 20)
  {
  }

  lemma FDisjoint20_21()
    ensures SourcesDisjointIn(FRules(), 20, 21)
  {
  }

  lemma FDisjointAcross0_20_21()
    ensures DisjointAcross(FRules(), 0, 20, 21)
  {
  }

  lemma FAgrees0_3()
    ensures AgreesIn(FRules(), Quarter(ZAxis, Pos, 1), 0, 3)
  {
    var T := FRules();
    forall k, q | 0 <= k < 3 && Matches(T[k].source, q)
      ensures LayerOf(ZAxis, q) == Pos && Relocate(T[k].destination, q) == QuarterMove(Quarter(ZAxis, Pos, 1), q)
    {
      if k == 0 {
        assert q == Position(F, Top, Left);
      } else if k == 1 {
        assert q == Position(F, Top, Center);
      } else {
        assert q == Position(F, Top, Right);
      }
    }
  }

  lemma FAgrees3_6()
    ensures AgreesIn(FRules(), Quarter(ZAxis, Pos, 1), 3, 6)
  {
    var T := FRules();
    forall k, q | 3 <= k < 6 && Matches(T[k].source, q)
      ensures LayerOf(ZAxis, q) == Pos && Relocate(T[k].destination, q) == QuarterMove(Quarter(ZAxis, Pos, 1), q)
    {
      if k == 3 {
        assert q == Position(F, Middle, Right);
      } else if k == 4 {
        assert q == Position(F, Bottom, Right);
      } else {
        assert q == Position(F, Bottom, Center);
      }
    }
  }

  lemma FAgrees6_9()
    ensures AgreesIn(FRules(), Quarter(ZAxis, Pos, 1), 6, 9)
  {
    var T := FRules();
    forall k, q | 6 <= k < 9 && Matches(T[k].source, q)
      ensures LayerOf(ZAxis, q) == Pos && Relocate(T[k].destination, q) == QuarterMove(Quarter(ZAxis, Pos, 1), q)
    {
      if k == 6 {
        assert q == Position(F, Bottom, Left);
      } else if k == 7 {
        assert q == Position(F, Middle, Left);
      } else {
        assert q == Position(F, Middle, Center);
      }
    }
  }

  lemma FAgrees9_12()
    ensures AgreesIn(FRules(), Quarter(ZAxis, Pos, 1), 9, 12)
  {
    var T := FRules();
    forall k, q | 9 <= k < 12 && Matches(T[k].source, q)
      ensures LayerOf(ZAxis, q) == Pos && Relocate(T[k].destination, q) == QuarterMove(Quarter(ZAxis, Pos, 1), q)
    {
      if k == 9 {
        assert q == Position(L, Top, Right);
      } else if k == 10 {
        assert q == Position(L, Middle, Right);
      } else {
        assert q == Position(L, Bottom, Right);
      }
    }
  }

  lemma FAgrees12_15()
    ensures AgreesIn(FRules(), Quarter(ZAxis, Pos, 1), 12, 15)
  {
    var T := FRules();
    forall k, q | 12 <= k < 15 && Matches(T[k].source, q)
      ensures LayerOf(ZAxis, q) == Pos && Relocate(T[k].destination, q) == QuarterMove(Quarter(ZAxis, Pos, 1), q)
    {
      if k == 12 {
        assert q == Position(U, Bottom, Left);
      } else if k == 13 {
        assert q == Position(U, Bottom, Center);
      } else {
        assert q == Position(U, Bottom, Right);
      }
    }
  }

  lemma FAgrees15_18()
    ensures AgreesIn(FRules(), Quarter(ZAxis, Pos, 1), 15, 18)
  {
    var T := FRules();
    forall k, q | 15 <= k < 18 && Matches(T[k].source, q)
      ensures LayerOf(ZAxis, q) == Pos && Relocate(T[k].destination, q) == QuarterMove(Quarter(ZAxis, Pos, 1), q)
    {
      if k == 15 {
        assert q == Position(R, Top, Left);
      } else if k == 16 {
        assert q == Position(R, Middle, Left);
      } else {
        assert q == Position(R, Bottom, Left);
      }
    }
  }

  lemma FAgrees18_21()
    ensures AgreesIn(FRules(), Quarter(ZAxis, Pos, 1), 18, 21)
  {
    var T := FRules();
    forall k, q | 18 <= k < 21 && Matches(T[k].source, q)
      ensures LayerOf(ZAxis, q) == Pos && Relocate(T[k].destination, q) == QuarterMove(Quarter(ZAxis, Pos, 1), q)
    {
      if k == 18 {
        assert q == Position(D, Top, Left);
      } else if k == 19 {
        assert q == Position(D, Top, Center);
      } else {
        assert q == Position(D, Top, Right);
      }
    }
  }

  lemma FAgrees()
    ensures AgreesWith(FRules(), Quarter(ZAxis, Pos, 1))
  {
    var T, t := FRules(), Quarter(ZAxis, Pos, 1);
    FAgrees0_3();
    FAgrees3_6();
    AgreesJoin(T, t, 0, 3, 6);
    FAgrees6_9();
    AgreesJoin(T, t, 0, 6, 9);
    FAgrees9_12();
    AgreesJoin(T, t, 0, 9, 12);
    FAgrees12_15();
    AgreesJoin(T, t, 0, 12, 15);
    FAgrees15_18();
    AgreesJoin(T, t, 0, 15, 18);
    FAgrees18_21();
    AgreesJoin(T, t, 0, 18, 21);
    AgreesAll(T, t);
  }

  lemma FCovers()
    ensures CoversLayer(FRules(), Quarter(ZAxis, Pos, 1))
  {
    var T := FRules();
    assert T == [T[0], T[1], T[2], T[3], T[4], T[5], T[6], T[7], T[8], T[9], T[10], T[11], T[12], T[13], T[14], T[15], T[16], T[17], T[18], T[19], T[20]];
  }

  /** The rules of F (scary-cube.js:85-107) have pairwise disjoint sources and perform
      the quarter turn F. */
  lemma FIsQuarterTurn()
    ensures SourcesDisjoint(FRules())
    ensures IsQuarterTurn(FRules(), Quarter(ZAxis, Pos, 1))
  {
    var T := FRules();
    FDisjoint0_4();
    FDisjoint4_8();
    FDisjointAcross0_4_8();
    JoinDisjoint(T, 0, 4, 8);
    FDisjoint8_12();
    FDisjointAcross0_8_12();
    JoinDisjoint(T, 0, 8, 12);
    FDisjoint12_16();
    FDisjointAcross0_12_16();
    JoinDisjoint(T, 0, 12, 16);
    FDisjoint16_20();
    FDisjointAcross0_16_20();
    JoinDisjoint(T, 0, 16, 20);
    FDisjoint20_21();
    FDisjointAcross0_20_21();
    JoinDisjoint(T, 0, 20, 21);
    FAgrees();
    FCovers();
    TableIsTurn(T, Quarter(ZAxis, Pos, 1));
  }

  lemma BDisjoint0_4()
    ensures SourcesDisjointIn(BRules(), 0, 4)
  {
  }

  lemma BDisjoint4_8()
    ensures SourcesDisjointIn(BRules(), 4, 8)
  {
  }

  lemma BDisjointAcross0_4_8()
    ensures DisjointAcross(BRules(), 0, 4, 8)
  {
  }

  lemma BDisjoint8_12()
    ensures SourcesDisjointIn(BRules(), 8, 12)
  {
  }

  lemma BDisjointAcross0_8_12()
    ensures DisjointAcross(BRules(), 0, 8, 12)
  {
  }

  lemma BDisjoint12_16()
    ensures SourcesDisjointIn(BRules(), 12, 16)
  {
  }

  lemma BDisjointAcross0_12_16()
    ensures DisjointAcross(BRules(), 0, 12, 16)
  {
  }

  lemma BDisjoint16_20()
    ensures SourcesDisjointIn(BRules(), 16, 20)
  {
  }

  lemma BDisjointAcross0_16_20()
    ensures DisjointAcross(BRules(), 0, 16, 20)
  {
  }

  lemma BDisjoint20_21()
    ensures SourcesDisjointIn(BRules(), 20, 21)
  {
  }

  lemma BDisjointAcross0_20_21()
    ensures DisjointAcross(BRules(), 0, 20, 21)
  {
  }

  lemma BAgrees0_3()
    ensures AgreesIn(BRules(), Quarter(ZAxis, Neg, 3), 0, 3)
  {
    var T := BRules();
    forall k, q | 0 <= k < 3 && Matches(T[k].source, q)
      ensures LayerOf(ZAxis, q) == Neg && Relocate(T[k].destination, q) == QuarterMove(Quarter(ZAxis, Neg, 3), q)
    {
      if k == 0 {
        assert q == Position(B, Top, Left);
      } else if k == 1 {
        assert q == Position(B, Top, Center);
      } else {
        assert q == Position(B, Top, Right);
      }
    }
  }

  lemma BAgrees3_6()
    ensures AgreesIn(BRules(), Quarter(ZAxis, Neg, 3), 3, 6)
  {
    var T := BRules();
    forall k, q | 3 <= k < 6 && Matches(T[k].source, q)
      ensures LayerOf(ZAxis, q) == Neg && Relocate(T[k].destination, q) == QuarterMove(Quarter(ZAxis, Neg, 3), q)
    {
      if k == 3 {
        assert q == Position(B, Middle, Right);
      } else if k == 4 {
        assert q == Position(B, Bottom, Right);
      } else {
        assert q == Position(B, Bottom, Center);
      }
    }
  }

  lemma BAgrees6_9()
    ensures AgreesIn(BRules(), Quarter(ZAxis, Neg, 3), 6, 9)
  {
    var T := BRules();
    forall k, q | 6 <= k < 9 && Matches(T[k].source, q)
      ensures LayerOf(ZAxis, q) == Neg && Relocate(T[k].destination, q) == QuarterMove(Quarter(ZAxis, Neg, 3), q)
    {
      if k == 6 {
        assert q == Position(B, Bottom, Left);
      } else if k == 7 {
        assert q == Position(B, Middle, Left);
      } else {
        assert q == Position(B, Middle, Center);
      }
    }
  }

  lemma BAgrees9_12()
    ensures AgreesIn(BRules(), Quarter(ZAxis, Neg, 3), 9, 12)
  {
    var T := BRules();
    forall k, q | 9 <= k < 12 && Matches(T[k].source, q)
      ensures LayerOf(ZAxis, q) == Neg && Relocate(T[k].destination, q) == QuarterMove(Quarter(ZAxis, Neg, 3), q)
    {
      if k == 9 {
        assert q == Position(R, Top, Right);
      } else if k == 10 {
        assert q == Position(R, Middle, Right);
      } else {
        assert q == Position(R, Bottom, Right);
      }
    }
  }

  lemma BAgrees12_15()
    ensures AgreesIn(BRules(), Quarter(ZAxis, Neg, 3), 12, 15)
  {
    var T := BRules();
    forall k, q | 12 <= k < 15 && Matches(T[k].source, q)
      ensures LayerOf(ZAxis, q) == Neg && Relocate(T[k].destination, q) == QuarterMove(Quarter(ZAxis, Neg, 3), q)
    {
      if k == 12 {
        assert q == Position(U, Top, Left);
      } else if k == 13 {
        assert q == Position(U, Top, Center);
      } else {
        assert q == Position(U, Top, Right);
      }
    }
  }

  lemma BAgrees15_18()
    ensures AgreesIn(BRules(), Quarter(ZAxis, Neg, 3), 15, 18)
  {
    var T := BRules();
    forall k, q | 15 <= k < 18 && Matches(T[k].source, q)
      ensures LayerOf(ZAxis, q) == Neg && Relocate(T[k].destination, q) == QuarterMove(Quarter(ZAxis, Neg, 3), q)
    {
      if k == 15 {
        assert q == Position(L, Top, Left);
      } else if k == 16 {
        assert q == Position(L, Middle, Left);
      } else {
        assert q == Position(L, Bottom, Left);
      }
    }
  }

  lemma BAgrees18_21()
    ensures AgreesIn(BRules(), Quarter(ZAxis, Neg, 3), 18, 21)
  {
    var T := BRules();
    forall k, q | 18 <= k < 21 && Matches(T[k].source, q)
      ensures LayerOf(ZAxis, q) == Neg && Relocate(T[k].destination, q) == QuarterMove(Quarter(ZAxis, Neg, 3), q)
    {
      if k == 18 {
        assert q == Position(D, Bottom, Right);
      } else if k == 19 {
        assert q == Position(D, Bottom, Center);
      } else {
        assert q == Position(D, Bottom, Left);
      }
    }
  }

  lemma BAgrees()
    ensures AgreesWith(BRules(), Quarter(ZAxis, Neg, 3))
  {
    var T, t := BRules(), Quarter(ZAxis, Neg, 3);
    BAgrees0_3();
    BAgrees3_6();
    AgreesJoin(T, t, 0, 3, 6);
    BAgrees6_9();
    AgreesJoin(T, t, 0, 6, 9);
    BAgrees9_12();
    AgreesJoin(T, t, 0, 9, 12);
    BAgrees12_15();
    AgreesJoin(T, t, 0, 12, 15);
    BAgrees15_18();
    AgreesJoin(T, t, 0, 15, 18);
    BAgrees18_21();
    AgreesJoin(T, t, 0, 18, 21);
    AgreesAll(T, t);
  }

  lemma BCovers()
    ensures CoversLayer(BRules(), Quarter(ZAxis, Neg, 3))
  {
    var T := BRules();
    assert T == [T[0], T[1], T[2], T[3], T[4], T[5], T[6], T[7], T[8], T[9], T[10], T[11], T[12], T[13], T[14], T[15], T[16], T[17], T[18], T[19], T[20]];
  }

  /** The rules of B (scary-cube.js:109-131) have pairwise disjoint sources and perform
      the quarter turn B. */
  lemma BIsQuarterTurn()
    ensures SourcesDisjoint(BRules())
    ensures IsQuarterTurn(BRules(), Quarter(ZAxis, Neg, 3))
  {
    var T := BRules();
    BDisjoint0_4();
    BDisjoint4_8();
    BDisjointAcross0_4_8();
    JoinDisjoint(T, 0, 4, 8);
    BDisjoint8_12();
    BDisjointAcross0_8_12();
    JoinDisjoint(T, 0, 8, 12);
    BDisjoint12_16();
    BDisjointAcross0_12_16();
    JoinDisjoint(T, 0, 12, 16);
    BDisjoint16_20();
    BDisjointAcross0_16_20();
    JoinDisjoint(T, 0, 16, 20);
    BDisjoint20_21();
    BDisjointAcross0_20_21();
    JoinDisjoint(T, 0, 20, 21);
    BAgrees();
    BCovers();
    TableIsTurn(T, Quarter(ZAxis, Neg, 3));
  }

  lemma MDisjoint0_4()
    ensures SourcesDisjointIn(MRules(), 0, 4)
  {
  }

  lemma MDisjoint4_8()
    ensures SourcesDisjointIn(MRules(), 4, 8)
  {
  }

  lemma MDisjointAcross0_4_8()
    ensures DisjointAcross(MRules(), 0, 4, 8)
  {
  }

  lemma MAgrees0_3()
    ensures AgreesIn(MRules(), Quarter(XAxis, Zero, 3), 0, 3)
  {
    var T := MRules();
    forall k, q | 0 <= k < 3 && Matches(T[k].source, q)
      ensures LayerOf(XAxis, q) == Zero && Relocate(T[k].destination, q) == QuarterMove(Quarter(XAxis, Zero, 3), q)
    {
      if k == 0 {
        if q.vPos == Top {
          assert q == Position(U, Top, Center);
        } else if q.vPos == Middle {
          assert q == Position(U, Middle, Center);
        } else {
          assert q == Position(U, Bottom, Center);
        }
      } else if k == 1 {
        if q.vPos == Top {
          assert q == Position(F, Top, Center);
        } else if q.vPos == Middle {
          assert q == Position(F, Middle, Center);
        } else {
          assert q == Position(F, Bottom, Center);
        }
      } else {
        assert q == Position(B, Top, Center);
      }
    }
  }

  lemma MAgrees3_6()
    ensures AgreesIn(MRules(), Quarter(XAxis, Zero, 3), 3, 6)
  {
    var T := MRules();
    forall k, q | 3 <= k < 6 && Matches(T[k].source, q)
      ensures LayerOf(XAxis, q) == Zero && Relocate(T[k].destination, q) == QuarterMove(Quarter(XAxis, Zero, 3), q)
    {
      if k == 3 {
        assert q == Position(B, Middle, Center);
      } else if k == 4 {
        assert q == Position(B, Bottom, Center);
      } else {
        assert q == Position(D, Top, Center);
      }
    }
  }

  lemma MAgrees6_8()
    ensures AgreesIn(MRules(), Quarter(XAxis, Zero, 3), 6, 8)
  {
    var T := MRules();
    forall k, q | 6 <= k < 8 && Matches(T[k].source, q)
      ensures LayerOf(XAxis, q) == Zero && Relocate(T[k].destination, q) == QuarterMove(Quarter(XAxis, Zero, 3), q)
    {
      if k == 6 {
        assert q == Position(D, Middle, Center);
      } else {
        assert q == Position(D, Bottom, Center);
      }
    }
  }

  lemma MAgrees()
    ensures AgreesWith(MRules(), Quarter(XAxis, Zero, 3))
  {
    var T, t := MRules(), Quarter(XAxis, Zero, 3);
    MAgrees0_3();
    MAgrees3_6();
    AgreesJoin(T, t, 0, 3, 6);
    MAgrees6_8();
    AgreesJoin(T, t, 0, 6, 8);
    AgreesAll(T, t);
  }

  lemma MCovers()
    ensures CoversLayer(MRules(), Quarter(XAxis, Zero, 3))
  {
    var T := MRules();
    assert T == [T[0], T[1], T[2], T[3], T[4], T[5], T[6], T[7]];
  }

  /** The rules of M (scary-cube.js:133-142) have pairwise disjoint sources and perform
      the quarter turn M. */
  lemma MIsQuarterTurn()
    ensures SourcesDisjoint(MRules())
    ensures IsQuarterTurn(MRules(), Quarter(XAxis, Zero, 3))
  {
    var T := MRules();
    MDisjoint0_4();
    MDisjoint4_8();
    MDisjointAcross0_4_8();
    JoinDisjoint(T, 0, 4, 8);
    MAgrees();
    MCovers();
    TableIsTurn(T, Quarter(XAxis, Zero, 3));
  }

  lemma EDisjoint0_4()
    ensures SourcesDisjointIn(ERules(), 0, 4)
  {
  }

  lemma EAgrees0_3()
    ensures AgreesIn(ERules(), Quarter(YAxis, Zero, 3), 0, 3)
  {
    var T := ERules();
    forall k, q | 0 <= k < 3 && Matches(T[k].source, q)
      ensures LayerOf(YAxis, q) == Zero && Relocate(T[k].destination, q) == QuarterMove(Quarter(YAxis, Zero, 3), q)
    {
      if k == 0 {
        if q.hPos == Left {
          assert q == Position(F, Middle, Left);
        } else if q.hPos == Center {
          assert q == Position(F, Middle, Center);
        } else {
          assert q == Position(F, Middle, Right);
        }
      } else if k == 1 {
        if q.hPos == Left {
          assert q == Position(L, Middle, Left);
        } else if q.hPos == Center {
          assert q == Position(L, Middle, Center);
        } else {
          assert q == Position(L, Middle, Right);
        }
      } else {
        if q.hPos == Left {
          assert q == Position(B, Middle, Left);
        } else if q.hPos == Center {
          assert q == Position(B, Middle, Center);
        } else {
          assert q == Position(B, Middle, Right);
        }
      }
    }
  }

  lemma EAgrees3_4()
    ensures AgreesIn(ERules(), Quarter(YAxis, Zero, 3), 3, 4)
  {
    var T := ERules();
    forall k, q | 3 <= k < 4 && Matches(T[k].source, q)
      ensures LayerOf(YAxis, q) == Zero && Relocate(T[k].destination, q) == QuarterMove(Quarter(YAxis, Zero, 3), q)
    {
      if q.hPos == Left {
        assert q == Position(R, Middle, Left);
      } else if q.hPos == Center {
        assert q == Position(R, Middle, Center);
      } else {
        assert q == Position(R, Middle, Right);
      }
    }
  }

  lemma EAgrees()
    ensures AgreesWith(ERules(), Quarter(YAxis, Zero, 3))
  {
    var T, t := ERules(), Quarter(YAxis, Zero, 3);
    EAgrees0_3();
    EAgrees3_4();
    AgreesJoin(T, t, 0, 3, 4);
    AgreesAll(T, t);
  }

  lemma ECovers()
    ensures CoversLayer(ERules(), Quarter(YAxis, Zero, 3))
  {
    var T := ERules();
    assert T == [T[0], T[1], T[2], T[3]];
  }

  /** The rules of E (scary-cube.js:143-148) have pairwise disjoint sources and perform
      the quarter turn E. */
  lemma EIsQuarterTurn()
    ensures SourcesDisjoint(ERules())
    ensures IsQuarterTurn(ERules(), Quarter(YAxis, Zero, 3))
  {
    var T := ERules();
    EDisjoint0_4();
    EAgrees();
    ECovers();
    TableIsTurn(T, Quarter(YAxis, Zero, 3));
  }

  lemma SDisjoint0_4()
    ensures SourcesDisjointIn(SRules(), 0, 4)
  {
  }

  lemma SDisjoint4_8()
    ensures SourcesDisjointIn(SRules(), 4, 8)
  {
  }

  lemma SDisjointAcross0_4_8()
    ensures DisjointAcross(SRules(), 0, 4, 8)
  {
  }

  lemma SDisjoint8_12()
    ensures SourcesDisjointIn(SRules(), 8, 12)
  {
  }

  lemma SDisjointAcross0_8_12()
    ensures DisjointAcross(SRules(), 0, 8, 12)
  {
  }

  lemma SAgrees0_3()
    ensures AgreesIn(SRules(), Quarter(ZAxis, Zero, 1), 0, 3)
  {
    var T := SRules();
    forall k, q | 0 <= k < 3 && Matches(T[k].source, q)
      ensures LayerOf(ZAxis, q) == Zero && Relocate(T[k].destination, q) == QuarterMove(Quarter(ZAxis, Zero, 1), q)
    {
      if k == 0 {
        assert q == Position(L, Top, Center);
      } else if k == 1 {
        assert q == Position(L, Middle, Center);
      } else {
        assert q == Position(L, Bottom, Center);
      }
    }
  }

  lemma SAgrees3_6()
    ensures AgreesIn(SRules(), Quarter(ZAxis, Zero, 1), 3, 6)
  {
    var T := SRules();
    forall k, q | 3 <= k < 6 && Matches(T[k].source, q)
      ensures LayerOf(ZAxis, q) == Zero && Relocate(T[k].destination, q) == QuarterMove(Quarter(ZAxis, Zero, 1), q)
    {
      if k == 3 {
        assert q == Position(U, Middle, Left);
      } else if k == 4 {
        assert q == Position(U, Middle, Center);
      } else {
        assert q == Position(U, Middle, Right);
      }
    }
  }

  lemma SAgrees6_9()
    ensures AgreesIn(SRules(), Quarter(ZAxis, Zero, 1), 6, 9)
  {
    var T := SRules();
    forall k, q | 6 <= k < 9 && Matches(T[k].source, q)
      ensures LayerOf(ZAxis, q) == Zero && Relocate(T[k].destination, q) == QuarterMove(Quarter(ZAxis, Zero, 1), q)
    {
      if k == 6 {
        assert q == Position(R, Top, Center);
      } else if k == 7 {
        assert q == Position(R, Middle, Center);
      } else {
        assert q == Position(R, Bottom, Center);
      }
    }
  }

  lemma SAgrees9_12()
    ensures AgreesIn(SRules(), Quarter(ZAxis, Zero, 1), 9, 12)
  {
    var T := SRules();
    forall k, q | 9 <= k < 12 && Matches(T[k].source, q)
      ensures LayerOf(ZAxis, q) == Zero && Relocate(T[k].destination, q) == QuarterMove(Quarter(ZAxis, Zero, 1), q)
    {
      if k == 9 {
        assert q == Position(D, Middle, Left);
      } else if k == 10 {
        assert q == Position(D, Middle, Center);
      } else {
        assert q == Position(D, Middle, Right);
      }
    }
  }

  lemma SAgrees()
    ensures AgreesWith(SRules(), Quarter(ZAxis, Zero, 1))
  {
    var T, t := SRules(), Quarter(ZAxis, Zero, 1);
    SAgrees0_3();
    SAgrees3_6();
    AgreesJoin(T, t, 0, 3, 6);
    SAgrees6_9();
    AgreesJoin(T, t, 0, 6, 9);
    SAgrees9_12();
    AgreesJoin(T, t, 0, 9, 12);
    AgreesAll(T, t);
  }

  lemma SCovers()
    ensures CoversLayer(SRules(), Quarter(ZAxis, Zero, 1))
  {
    var T := SRules();
    assert T == [T[0], T[1], T[2], T[3], T[4], T[5], T[6], T[7], T[8], T[9], T[10], T[11]];
  }

  /** The rules of S (scary-cube.js:149-162) have pairwise disjoint sources and perform
      the quarter turn S. */
  lemma SIsQuarterTurn()
    ensures SourcesDisjoint(SRules())
    ensures IsQuarterTurn(SRules(), Quarter(ZAxis, Zero, 1))
  {
    var T := SRules();
    SDisjoint0_4();
    SDisjoint4_8();
    SDisjointAcross0_4_8();
    JoinDisjoint(T, 0, 4, 8);
    SDisjoint8_12();
    SDisjointAcross0_8_12();
    JoinDisjoint(T, 0, 8, 12);
    SAgrees();
    SCovers();
    TableIsTurn(T, Quarter(ZAxis, Zero, 1));
  }

  /** The quarter turn each primitive's table performs: U, R, F and S clockwise seen
      from the positive end of their axis, D, L, B, E and M the other way. */
  function QuarterOf(c: char): Quarter
    requires IsPrimitive(c)
  {
    match c
    case 'U' => Quarter(YAxis, Pos, 1)
    case 'D' => Quarter(YAxis, Neg, 3)
    case 'E' => Quarter(YAxis, Zero, 3)
    case 'R' => Quarter(XAxis, Pos, 1)
    case 'L' => Quarter(XAxis, Neg, 3)
    case 'M' => Quarter(XAxis, Zero, 3)
    case 'F' => Quarter(ZAxis, Pos, 1)
    case 'B' => Quarter(ZAxis, Neg, 3)
    case 'S' => Quarter(ZAxis, Zero, 1)
  }

  /** Every primitive's rule list has pairwise disjoint sources, matches exactly the
      stickers of its layer and performs its quarter turn. */
  lemma PrimitiveIsQuarterTurn(c: char)
    requires IsPrimitive(c)
    ensures SourcesDisjoint(RulesOf(c))
    ensures IsQuarterTurn(RulesOf(c), QuarterOf(c))
  {
    if c == 'U' { UIsQuarterTurn(); }
    else if c == 'D' { DIsQuarterTurn(); }
    else if c == 'R' { RIsQuarterTurn(); }
    else if c == 'L' { LIsQuarterTurn(); }
    else if c == 'F' { FIsQuarterTurn(); }
    else if c == 'B' { BIsQuarterTurn(); }
    else if c == 'M' { MIsQuarterTurn(); }
    else if c == 'E' { EIsQuarterTurn(); }
    else { SIsQuarterTurn(); }
  }
}
