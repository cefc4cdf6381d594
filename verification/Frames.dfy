// What a run of the video device publishes: every frame against the dots that drew its rows.
module Frames {
  import opened Words
  import opened Sprites
  import opened Rendering
  import opened Dots

  // What the rest of the machine can do to the video device, one dot at a time.
  datatype Event =
    | DotPassed
    | CpuWrite(address: u16, value: u8)
    | DmaByte(index: u8, value: u8)
    | FrameTaken

  ghost function Step(s: State, e: Event): State {
    match e
    case DotPassed => Dot(s)
    case CpuWrite(address, value) => Written(s, address, value)
    case DmaByte(index, value) => Copied(s, index, value)
    case FrameTaken => Taken(s)
  }

  // The state before event k of a run from power-on.
  ghost function At(events: seq<Event>, k: nat): State
    requires k <= |events|
  {
    if k == 0 then PowerOn() else Step(At(events, k - 1), events[k - 1])
  }

  // ---- What a run does ----

  // Event k stores the scanline of line y.
  ghost predicate Draws(events: seq<Event>, k: nat, y: nat) {
    k < |events| && events[k] == DotPassed && At(events, k).DrawsNext() && At(events, k).scan.line == y
  }

  // Event k enters line 144.
  ghost predicate Publishes(events: seq<Event>, k: nat) {
    k < |events| && events[k] == DotPassed && At(events, k).PublishesNext()
  }

  ghost predicate SwitchesOn(events: seq<Event>, k: nat) {
    k < |events| && !At(events, k).Enabled() && At(events, k + 1).Enabled()
  }

  // The LCD was switched on before event n, and nothing has been published since.
  ghost predicate Restarted(events: seq<Event>, n: nat) {
    exists k :: 0 <= k < n && SwitchesOn(events, k) && forall j :: k <= j < n ==> !Publishes(events, j)
  }

  // Event k drew line y for the last time before event n, and no frame was published since.
  ghost predicate DrewLast(events: seq<Event>, k: nat, y: nat, n: nat) {
    k < n && Draws(events, k, y) && forall j :: k < j < n ==> !Draws(events, j, y) && !Publishes(events, j)
  }

  // A pixel of the picture is what the pixel rule demands of the given video state.
  ghost predicate PixelShows(v: Video, y: LineNumber, x: nat, picture: Picture)
    requires y < VISIBLE_LINES && x < SCREEN_WIDTH
  {
    exists p: Pixel :: PixelRule(v, y, x, p) && picture[y * SCREEN_WIDTH + x] == p.shade
  }

  ghost predicate RowShows(v: Video, y: LineNumber, picture: Picture)
    requires y < VISIBLE_LINES
  {
    forall x :: 0 <= x < SCREEN_WIDTH ==> PixelShows(v, y, x, picture)
  }

  // Row y of the picture shows the line as it was at the dot before event n that drew it last.
  ghost predicate RowIsDrawn(events: seq<Event>, y: nat, n: nat, picture: Picture)
    requires y < VISIBLE_LINES && n <= |events|
  {
    exists k :: 0 <= k < n && DrewLast(events, k, y, n) && RowShows(At(events, k).Line(), y, picture)
  }

  // Event p published the frame that is pending before event n.
  ghost predicate PublishedLast(events: seq<Event>, p: nat, n: nat) {
    && p < n <= |events| && Publishes(events, p)
    && forall j :: p < j < n ==> !Publishes(events, j) && events[j] != FrameTaken
  }

  // How many frames the events before event n published.
  ghost function Publications(events: seq<Event>, n: nat): nat
    requires n <= |events|
  {
    if n == 0 then 0 else Publications(events, n - 1) + if Publishes(events, n - 1) then 1 else 0
  }

  // The frame that event p publishes: the next number, and white after an LCD start or else in every row
  // the line as it was when it was drawn.
  ghost predicate IsFrame(events: seq<Event>, p: nat, frame: Frame)
    requires p < |events|
  {
    && frame.sequence == Publications(events, p) + 1
    && if Restarted(events, p) then frame.pixels == WhiteFrame()
       else forall y :: 0 <= y < VISIBLE_LINES ==> RowIsDrawn(events, y, p, frame.pixels)
  }

  // ---- Single events ----

  lemma CopiedKeepsValid(s: State, index: u8, value: u8)
    requires s.Valid()
    ensures Copied(s, index, value).Valid() && Taken(s).Valid()
  {
  }

  lemma {:induction false} AtIsValid(events: seq<Event>, k: nat)
    requires k <= |events|
    ensures At(events, k).Valid()
  {
    hide State.Valid, Dot, Written, Copied, Taken;
    if k == 0 {
      PowerOnIsValid();
    } else {
      AtIsValid(events, k - 1);
      var s := At(events, k - 1);
      match events[k - 1]
      case DotPassed => DotKeepsValid(s);
      case CpuWrite(address, value) => WrittenKeepsValid(s, address, value);
      case DmaByte(index, value) => CopiedKeepsValid(s, index, value);
      case FrameTaken => CopiedKeepsValid(s, 0, 0);
    }
  }

  lemma PowerOnIsValid()
    ensures PowerOn().Valid() && PowerOn().Enabled() && PowerOn().scan.rows == PowerOn().scan.line == 0
  {
  }

  // A painted row shows its line, and the other rows are as before.
  lemma {:induction false} PaintedShows(v: Video, line: LineNumber, before: Picture)
    requires line < VISIBLE_LINES && DistinctIndices(v.selected)
    ensures RowShows(v, line, Painted(v, line, before))
  {
    hide PixelRule, PixelOf, InWindow, DistinctIndices;
    var picture := Painted(v, line, before);
    forall x | 0 <= x < SCREEN_WIDTH ensures PixelShows(v, line, x, picture) {
      PixelOfIsRight(v, line, x, PixelOf(v, line, x));
      assert picture[line * SCREEN_WIDTH + x] == ShadeAt(v, line, before, line * SCREEN_WIDTH + x);
    }
  }

  lemma {:induction false} PaintedKeeps(v: Video, line: LineNumber, before: Picture, w: Video, y: LineNumber)
    requires line < VISIBLE_LINES && y < VISIBLE_LINES && y != line && RowShows(w, y, before)
    ensures RowShows(w, y, Painted(v, line, before))
  {
    hide PixelRule, PixelOf;
    var picture := Painted(v, line, before);
    forall x | 0 <= x < SCREEN_WIDTH ensures PixelShows(w, y, x, picture) {
      assert PixelShows(w, y, x, before);
      assert picture[y * SCREEN_WIDTH + x] == ShadeAt(v, line, before, y * SCREEN_WIDTH + x);
    }
  }

  // The rows that belong to the frame being drawn, in and across lines.
  lemma {:induction false} DotOnRows(s: State)
    requires s.Valid() && s.Enabled()
    ensures var c, d := s.scan, Dot(s).scan;
            && (s.DrawsNext() ==> c.Visible() && !c.EndsNext() && d.line == c.line && c.rows == 0 && d.rows == 1)
            && (c.Visible() && c.EndsNext() ==> c.rows == 1)
            && d.line == (if c.EndsNext() then (c.line + 1) % LINES_PER_FRAME else c.line)
            && (!s.DrawsNext() ==> d.rows == if c.EndsNext() then 0 else c.rows)
  {
    LengthBounds(s);
    var length, objects := LineLength(s.oam, s.registers, s.scan.line), ObjectsCost(s.oam, s.registers, s.scan.line);
    MovedMeasures(s.scan, s.registers, length, objects);
    MovedFields(s.scan, s.registers, length, objects);
    hide Filmed, LineLength, ObjectsCost, SelectSprites, DistinctIndices, Scan.Moved, Scan.Level, Mode3Dot, Scan.Valid;
  }

  // What a dot does to the picture and to the number of rows in it that belong to the frame being drawn.
  lemma {:induction false} DotOnFilm(s: State)
    requires s.Valid()
    ensures var t := Dot(s);
            if !s.Enabled() then t == s
            else
              && t.Enabled()
              && (s.DrawsNext() ==>
                    && !s.PublishesNext() && s.scan.Visible() && t.scan.line == s.scan.line && t.scan.rows == 1
                    && s.scan.rows == 0 && t.film == Exposed(s.film, s.Line(), s.scan.line))
              && (s.PublishesNext() ==>
                    s.scan.line == 143 && s.scan.rows == 1 && !t.scan.Visible() && t.film == Published(s.film))
              && (!s.DrawsNext() && !s.PublishesNext() ==>
                    && t.film == s.film.(windowLine := t.film.windowLine)
                    && (t.scan.Visible() && t.scan.line + t.scan.rows > 0 ==>
                          s.scan.Visible() && t.scan.line + t.scan.rows == s.scan.line + s.scan.rows))
  {
    hide Exposed, Painted, Published, Advanced, SelectSprites, State.Valid, Scan.DrawsNext;
    if s.Enabled() {
      DotOnRows(s);
    }
  }

  // No other event touches the picture; switching the LCD on makes the next frame blank.
  lemma {:induction false} OthersOnFilm(s: State, e: Event)
    requires e != DotPassed
    ensures var t := Step(s, e);
            && t.film == s.film.(windowLine := t.film.windowLine, blank := t.film.blank, pending := t.film.pending)
            && t.film.pending == (if e == FrameTaken then None else s.film.pending)
            && t.film.blank == (s.film.blank || (!s.Enabled() && t.Enabled()))
            && (s.Enabled() && t.Enabled() ==> t.scan.line == s.scan.line && t.scan.rows == s.scan.rows)
  {
    if e.CpuWrite? {
      WrittenKeepsFilm(s, e.address, e.value);
    }
    hide Written;
  }

  // ---- Runs ----

  // The frame being drawn holds every row up to the current line, each as of the dot that drew it.
  lemma {:induction false} RowsAreDrawn(events: seq<Event>, y: nat, n: nat)
    requires n <= |events|
    requires var s := At(events, n); s.Enabled() && s.scan.Visible() && !s.film.blank && y < s.scan.line + s.scan.rows
    requires y < VISIBLE_LINES
    ensures RowIsDrawn(events, y, n, At(events, n).film.picture)
  {
    hide RowShows, Painted, State.Valid, Dot, Written, Copied, Taken, State.DrawsNext, State.PublishesNext;
    if n == 0 {
      PowerOnIsValid();
    } else {
      var s, t := At(events, n - 1), At(events, n);
      AtIsValid(events, n - 1);
      if events[n - 1] == DotPassed {
        DotOnFilm(s);
        if Draws(events, n - 1, y) {
          DrawnHere(events, y, n);
        } else {
          RowsAreDrawn(events, y, n - 1);
          StaysDrawn(events, y, n);
        }
      } else {
        OthersOnFilm(s, events[n - 1]);
        RowsAreDrawn(events, y, n - 1);
        StaysDrawn(events, y, n);
      }
    }
  }

  lemma LineIsDistinct(s: State)
    requires s.Valid()
    ensures DistinctIndices(s.Line().selected)
  {
  }

  lemma {:induction false} DrawnHere(events: seq<Event>, y: nat, n: nat)
    requires 0 < n <= |events| && y < VISIBLE_LINES && Draws(events, n - 1, y) && !At(events, n - 1).film.blank
    ensures RowIsDrawn(events, y, n, At(events, n).film.picture)
  {
    hide RowShows, Painted, Dot, State.Valid;
    var s := At(events, n - 1);
    AtIsValid(events, n - 1);
    DotOnFilm(s);
    LineIsDistinct(s);
    PaintedShows(s.Line(), y, s.film.picture);
    assert DrewLast(events, n - 1, y, n);
  }

  lemma {:induction false} StaysDrawn(events: seq<Event>, y: nat, n: nat)
    requires 0 < n <= |events| && y < VISIBLE_LINES && !Draws(events, n - 1, y) && !Publishes(events, n - 1)
    requires !At(events, n - 1).film.blank && RowIsDrawn(events, y, n - 1, At(events, n - 1).film.picture)
    ensures RowIsDrawn(events, y, n, At(events, n).film.picture)
  {
    hide RowShows, Painted, Dot, Written, Copied, Taken, State.Valid, State.DrawsNext, State.PublishesNext;
    var s, t := At(events, n - 1), At(events, n);
    var k :| 0 <= k < n - 1 && DrewLast(events, k, y, n - 1) && RowShows(At(events, k).Line(), y, s.film.picture);
    assert DrewLast(events, k, y, n);
    AtIsValid(events, n - 1);
    if events[n - 1] == DotPassed {
      DotOnFilm(s);
      if s.Enabled() && s.DrawsNext() {
        PaintedKeeps(s.Line(), s.scan.line, s.film.picture, At(events, k).Line(), y);
      }
    } else {
      OthersOnFilm(s, events[n - 1]);
    }
  }

  // The frame being drawn is to be blank exactly when the LCD was switched on since the last one.
  lemma {:induction false} BlankAfterStart(events: seq<Event>, n: nat)
    requires n <= |events|
    ensures At(events, n).film.blank <==> Restarted(events, n)
  {
    hide Dot, Written, Copied, Taken, State.Valid, State.DrawsNext, Exposed;
    if n > 0 {
      BlankAfterStart(events, n - 1);
      AtIsValid(events, n - 1);
      var s, e := At(events, n - 1), events[n - 1];
      if e == DotPassed {
        DotOnFilm(s);
        ExposedKeeps(s.film, s.Line(), s.scan.line);
      } else {
        OthersOnFilm(s, e);
      }
      assert At(events, n).film.blank <==>
             SwitchesOn(events, n - 1) || (!Publishes(events, n - 1) && s.film.blank);
      OneMoreEvent(events, n);
    }
  }

  lemma OneMoreEvent(events: seq<Event>, n: nat)
    requires 0 < n <= |events| && !(SwitchesOn(events, n - 1) && Publishes(events, n - 1))
    ensures Restarted(events, n) <==>
            SwitchesOn(events, n - 1) || (!Publishes(events, n - 1) && Restarted(events, n - 1))
  {
    hide SwitchesOn, Publishes;
  }

  // A frame is pending exactly when one was published and not taken since, and it is the last one
  // published: numbered in order, and white after an LCD start or in every row as it was drawn.
  lemma {:induction false} PendingFrame(events: seq<Event>, n: nat)
    requires n <= |events|
    ensures At(events, n).film.pending.Some? <==> exists p :: 0 <= p < n && PublishedLast(events, p, n)
    ensures forall p :: 0 <= p < n && PublishedLast(events, p, n) ==>
              At(events, n).film.pending.Some? && IsFrame(events, p, At(events, n).film.pending.value)
  {
    hide Dot, Written, Copied, Taken, State.Valid, State.DrawsNext, Exposed, IsFrame, Publishes;
    if n > 0 {
      var m: nat := n - 1;
      PendingFrame(events, m);
      PendingChange(events, m);
      if Publishes(events, m) {
        assert PublishedLast(events, m, n);
        PublishedHere(events, n);
      } else if events[m] != FrameTaken {
        forall p | 0 <= p < n ensures PublishedLast(events, p, n) <==> p < m && PublishedLast(events, p, m) {
          StillPending(events, p, n);
        }
        if At(events, m).film.pending.Some? {
          var p :| 0 <= p < m && PublishedLast(events, p, m);
          assert PublishedLast(events, p, n);
        }
      }
    }
  }

  lemma {:induction false} PendingChange(events: seq<Event>, m: nat)
    requires m < |events|
    ensures !Publishes(events, m) ==>
              At(events, m + 1).film.pending == if events[m] == FrameTaken then None else At(events, m).film.pending
    ensures Publishes(events, m) ==> events[m] != FrameTaken
  {
    hide Dot, Written, Copied, Taken, State.Valid, State.DrawsNext, Exposed;
    var s := At(events, m);
    AtIsValid(events, m);
    if events[m] == DotPassed {
      DotOnFilm(s);
      ExposedKeeps(s.film, s.Line(), s.scan.line);
    } else {
      OthersOnFilm(s, events[m]);
    }
  }

  lemma StillPending(events: seq<Event>, p: nat, n: nat)
    requires p < n <= |events| && !Publishes(events, n - 1) && events[n - 1] != FrameTaken
    ensures PublishedLast(events, p, n) <==> p < n - 1 && PublishedLast(events, p, n - 1)
  {
    hide Publishes;
  }

  lemma {:induction false} FramesAreCounted(events: seq<Event>, n: nat)
    requires n <= |events|
    ensures At(events, n).film.next == Publications(events, n) + 1
  {
    hide Dot, Written, Copied, Taken, State.Valid, State.DrawsNext, Exposed;
    if n > 0 {
      FramesAreCounted(events, n - 1);
      AtIsValid(events, n - 1);
      var s, e := At(events, n - 1), events[n - 1];
      if e == DotPassed {
        DotOnFilm(s);
        ExposedKeeps(s.film, s.Line(), s.scan.line);
      } else {
        OthersOnFilm(s, e);
      }
    }
  }

  lemma {:induction false} PublishedHere(events: seq<Event>, n: nat)
    requires 0 < n <= |events| && Publishes(events, n - 1)
    ensures At(events, n).film.pending.Some? && IsFrame(events, n - 1, At(events, n).film.pending.value)
  {
    hide Dot, State.Valid, State.DrawsNext, RowIsDrawn, Restarted;
    var p: nat := n - 1;
    var s := At(events, p);
    AtIsValid(events, p);
    DotOnFilm(s);
    BlankAfterStart(events, p);
    FramesAreCounted(events, p);
    if !s.film.blank {
      forall y | 0 <= y < VISIBLE_LINES ensures RowIsDrawn(events, y, p, s.film.picture) {
        RowsAreDrawn(events, y, p);
      }
    }
  }

  // ---- The frame is determined ----

  lemma {:induction false} RowIsUnique(events: seq<Event>, y: LineNumber, n: nat, one: Picture, other: Picture, x: nat)
    requires y < VISIBLE_LINES && n <= |events| && x < SCREEN_WIDTH
    requires RowIsDrawn(events, y, n, one) && RowIsDrawn(events, y, n, other)
    ensures one[y * SCREEN_WIDTH + x] == other[y * SCREEN_WIDTH + x]
  {
    hide PixelRule, At, Draws, Publishes;
    var k :| 0 <= k < n && DrewLast(events, k, y, n) && RowShows(At(events, k).Line(), y, one);
    var j :| 0 <= j < n && DrewLast(events, j, y, n) && RowShows(At(events, j).Line(), y, other);
    assert j == k;
    var v := At(events, k).Line();
    assert PixelShows(v, y, x, one) && PixelShows(v, y, x, other);
    var p: Pixel :| PixelRule(v, y, x, p) && one[y * SCREEN_WIDTH + x] == p.shade;
    var q: Pixel :| PixelRule(v, y, x, q) && other[y * SCREEN_WIDTH + x] == q.shade;
    RuleIsDeterministic(v, y, x, p, q);
  }

  // No two frames meet what is said of the one that event p publishes.
  lemma {:induction false} FrameIsUnique(events: seq<Event>, p: nat, one: Frame, other: Frame)
    requires p < |events| && IsFrame(events, p, one) && IsFrame(events, p, other)
    ensures one == other
  {
    hide RowIsDrawn, Restarted, Publications;
    forall i | 0 <= i < FRAME_PIXELS ensures one.pixels[i] == other.pixels[i] {
      if !Restarted(events, p) {
        var y, x := i / SCREEN_WIDTH, i % SCREEN_WIDTH;
        assert RowIsDrawn(events, y, p, one.pixels) && RowIsDrawn(events, y, p, other.pixels);
        RowIsUnique(events, y, p, one.pixels, other.pixels, x);
      }
    }
    assert one.pixels == other.pixels;
  }
}
