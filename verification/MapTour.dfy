/**
 Tours of the dungeon: a journal that follows the tables and comes by every room
 leaves nothing unexplored, and the game's two floors have such a tour.
 */
module MapTour {
  import opened Wrappers

  import opened MapTables
  import opened MapWorld
  import opened MapHistory
  import opened MapRuns
  import opened MapMoves
  import opened MapClaims

  /** A tour: no process dies, and a session is running at its end. */
  ghost predicate IsTour(t: seq<Floor>, h: Journal)
    requires TowerOk(t)
  {
    && Led(t, h) && h != [] && h[|h| - 1].at.Some?
    && forall i :: 0 <= i < |h| ==> !Death(h[i].event)
  }

  ghost predicate Comes(h: Journal, at: Place) {
    exists i :: 0 <= i < |h| && !Boundary(h[i].event) && h[i].at == Some(at)
  }

  /** The tour comes by every room of the floor that is not drawn from the outset. */
  ghost predicate Covers(f: Floor, m: int, h: Journal)
    requires FloorOk(f)
  {
    forall p :: Open(f, p) ==> At(f.first, p) != Blank || Comes(h, Place(m, p))
  }

  lemma ComesIsKnown(h: Journal, m: int, k: int)
    requires Comes(h, Place(m, CellOf(k))) && forall i :: 0 <= i < |h| ==> !Death(h[i].event)
    ensures Known(h, m, k)
  {
    var i :| 0 <= i < |h| && !Boundary(h[i].event) && h[i].at == Some(Place(m, CellOf(k)));
    assert Seen(h, m, k, i, i) && KnownSince(h, i, Offset(m, k));
  }

  lemma CoveredByte(t: seq<Floor>, h: Journal, m: int, k: int)
    requires TowerOk(t) && IsTour(t, h) && 0 <= m < 2 && Covers(t[m], m, h)
    requires 0 <= k < 84 && IsRoomByte(k) && At(t[m].level, CellOf(k)) != Blank
    ensures k in Hints(t[m]) + KnownBytes(h, m)
  {
    hide Led, Known, Comes;
    var p := CellOf(k);
    assert RoomOk(t[m], p);
    if At(t[m].first, p) == Blank {
      ComesIsKnown(h, m, k);
    }
  }

  lemma DrawnWhole(g: Grid<Glyph>, bytes: set<int>)
    requires IsGrid(g)
    requires forall k :: 0 <= k < 84 && IsRoomByte(k) && At(g, CellOf(k)) != Blank ==> k in bytes
    ensures Image(g, bytes) == Encode(g)
  {
  }

  lemma TourRuns(es: seq<Event>, ws: seq<World>)
    requires |ws| == |es| + 1 && es != [] && JournalOf(es, ws)[|es| - 1].at.Some?
    ensures ws[|es|].session.Some?
  {
  }

  /** A tour that covers a floor leaves its whole drawing on display. */
  lemma CoveredIsShown(t: seq<Floor>, es: seq<Event>, ws: seq<World>, h: Journal, m: int)
    requires TowerOk(t) && 0 <= m < 2 && IsTour(t, h) && Covers(t[m], m, h)
    requires |ws| == |es| + 1 && h == JournalOf(es, ws) && IsRun(t, es, ws)
    ensures |ws[|es|].disp| == 2 && ws[|es|].disp[m] == Encode(t[m].level)
  {
    hide CanStep, Led, Covers, Hints, KnownBytes, Encode, Image;
    TourRuns(es, ws);
    DisplayIsImage(t, es, ws, m);
    forall k | 0 <= k < 84 && IsRoomByte(k) && At(t[m].level, CellOf(k)) != Blank
      ensures k in Hints(t[m]) + KnownBytes(h, m)
    {
      CoveredByte(t, h, m, k);
    }
    DrawnWhole(t[m].level, Hints(t[m]) + KnownBytes(h, m));
  }

  // ----- The tour of the game -----

  function Stop(e: Event, floor: int, row: int, col: int): Entry {
    Entry(e, Some(Place(floor, Pos(row, col))))
  }

  /** Every room of both floors, a wall, and a stair declined and taken. */
  const TOUR: Journal := [
    Stop(Enter, 0, 1, 1),
    Stop(Walk(MoveDown), 0, 2, 1),
    Stop(Walk(MoveDown), 0, 3, 1),
    Stop(Walk(MoveLeft), 0, 3, 1),
    Stop(Walk(MoveRight), 0, 3, 2),
    Stop(Walk(MoveDown), 0, 4, 2),
    Stop(Walk(MoveUp), 0, 3, 2),
    Stop(Walk(MoveRight), 0, 3, 3),
    Stop(Walk(MoveRight), 0, 3, 4),
    Stop(Walk(MoveLeft), 0, 3, 3),
    Stop(Walk(MoveUp), 0, 2, 3),
    Stop(Stair(false), 0, 3, 3),
    Stop(Walk(MoveUp), 0, 2, 3),
    Stop(Stair(true), 1, 2, 2),
    Stop(Walk(MoveLeft), 1, 2, 1),
    Stop(Walk(MoveUp), 1, 1, 1),
    Stop(Walk(MoveDown), 1, 2, 1),
    Stop(Walk(MoveDown), 1, 3, 1),
    Stop(Walk(MoveDown), 1, 4, 1),
    Stop(Walk(MoveRight), 1, 4, 2),
    Stop(Walk(MoveRight), 1, 4, 3),
    Stop(Walk(MoveRight), 1, 4, 4),
    Stop(Walk(MoveUp), 1, 3, 4)]

  lemma TourLed(i: nat)
    requires i < 23
    ensures TowerOk(GameTower()) && |TOUR| == 23
    ensures EntryLed(GameTower(), Before(TOUR, i), TOUR[i]) && !Death(TOUR[i].event)
  {
    GameTowerOk();
    hide TowerOk;
    if i < 6 {
    } else if i < 12 {
    } else if i < 18 {
    } else {
    }
  }

  lemma LowerCovered()
    ensures FloorOk(Lower()) && Covers(Lower(), 0, TOUR)
  {
    LowerOk();
    hide FloorOk;
    forall p | Open(Lower(), p) ensures At(Lower().first, p) != Blank || Comes(TOUR, Place(0, p)) {
      if p.row == 2 {
        assert TOUR[1].at == Some(Place(0, Pos(2, 1))) && TOUR[10].at == Some(Place(0, Pos(2, 3)));
      } else if p.row == 3 {
        assert TOUR[2].at == Some(Place(0, Pos(3, 1))) && TOUR[4].at == Some(Place(0, Pos(3, 2)));
        assert TOUR[7].at == Some(Place(0, Pos(3, 3))) && TOUR[8].at == Some(Place(0, Pos(3, 4)));
      } else if p.row == 4 {
        assert TOUR[5].at == Some(Place(0, Pos(4, 2)));
      }
    }
  }

  lemma UpperCovered()
    ensures FloorOk(Upper()) && Covers(Upper(), 1, TOUR)
  {
    UpperOk();
    hide FloorOk;
    forall p | Open(Upper(), p) ensures At(Upper().first, p) != Blank || Comes(TOUR, Place(1, p)) {
      if p.row == 1 {
        assert TOUR[15].at == Some(Place(1, Pos(1, 1)));
      } else if p.row == 2 {
        assert TOUR[14].at == Some(Place(1, Pos(2, 1))) && TOUR[13].at == Some(Place(1, Pos(2, 2)));
      } else if p.row == 3 {
        assert TOUR[17].at == Some(Place(1, Pos(3, 1))) && TOUR[22].at == Some(Place(1, Pos(3, 4)));
      } else if p.row == 4 {
        assert TOUR[18].at == Some(Place(1, Pos(4, 1))) && TOUR[19].at == Some(Place(1, Pos(4, 2)));
        assert TOUR[20].at == Some(Place(1, Pos(4, 3))) && TOUR[21].at == Some(Place(1, Pos(4, 4)));
      }
    }
  }

  lemma TourIsTour()
    ensures TowerOk(GameTower()) && IsTour(GameTower(), TOUR)
  {
    GameTowerOk();
    hide TowerOk, EntryLed, GameTower;
    forall i | 0 <= i < |TOUR|
      ensures EntryLed(GameTower(), Before(TOUR, i), TOUR[i]) && !Death(TOUR[i].event)
    {
      TourLed(i);
    }
  }

  /** The game can be explored to the end: one session of it leaves both floors
      on display as they are drawn in the source. */
  lemma WholeMapExplorable() returns (ws: seq<World>)
    ensures TowerOk(GameTower()) && IsRun(GameTower(), EventsOf(TOUR), ws)
    ensures JournalOf(EventsOf(TOUR), ws) == TOUR
    ensures ws[|TOUR|].disp == [Encode(Lower().level), Encode(Upper().level)]
  {
    hide TowerOk, CanStep, Led, Covers, Encode, EventsOf;
    TourIsTour();
    ws := LedIsRun(GameTower(), TOUR);
    LowerCovered();
    UpperCovered();
    CoveredIsShown(GameTower(), EventsOf(TOUR), ws, TOUR, 0);
    CoveredIsShown(GameTower(), EventsOf(TOUR), ws, TOUR, 1);
  }
}
