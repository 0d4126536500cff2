/** btn_sprite_actions.h: sprite_animate_action, which shows a list of
    graphics of a sprite tiles item one after the other, holding each one
    for a number of frames. */
module SpriteActions {

  /** uint16_t */
  newtype U16 = x: int | 0 <= x < 0x1_0000

  /** The sprite tiles item the graphics are taken from, by identity. */
  datatype TilesItem = TilesItem(name: string)

  /** The sprite an action animates; set_tiles replaces the tiles it shows. */
  class SpritePtr {
    var tiles: TilesItem
    var graphicsIndex: int

    constructor(tiles: TilesItem, graphicsIndex: int)
      ensures this.tiles == tiles && this.graphicsIndex == graphicsIndex
    {
      this.tiles := tiles;
      this.graphicsIndex := graphicsIndex;
    }

    method SetTiles(tiles: TilesItem, graphicsIndex: int)
      modifies this
      ensures this.tiles == tiles && this.graphicsIndex == graphicsIndex
    {
      this.tiles := tiles;
      this.graphicsIndex := graphicsIndex;
    }
  }

  /** The two counters of an action: the index of the next graphic to show
      and the frames left to wait before showing it. */
  datatype Progress = Progress(index: U16, counter: U16)

  /** What update() does to the counters: wait while the counter is not
      zero; otherwise reload it and move to the next graphic, the uint16_t
      index wrapping at 65536 and a forever action going back to the first
      graphic after the last. */
  function Next(forever: bool, waitFrames: U16, size: nat, p: Progress): (q: Progress)
    ensures p.counter != 0 ==> q == Progress(p.index, p.counter - 1)
    ensures p.counter == 0 ==> q.counter == waitFrames
    ensures p.counter == 0 && p.index as int + 1 != size && p.index < 0xFFFF ==> q.index as int == p.index as int + 1
    ensures p.counter == 0 && p.index as int + 1 == size ==> q.index as int == (if forever then 0 else size % 0x1_0000)
    ensures p.counter == 0 && p.index == 0xFFFF ==> q.index == 0
  {
    if p.counter != 0 then Progress(p.index, p.counter - 1)
    else
      var index := (p.index as int + 1) % 0x1_0000;
      Progress(if forever && index == size then 0 else index as U16, waitFrames)
  }

  /** `n` updates in a row. */
  function Iterate(forever: bool, waitFrames: U16, size: nat, n: nat, p: Progress): Progress {
    if n == 0 then p else Iterate(forever, waitFrames, size, n - 1, Next(forever, waitFrames, size, p))
  }

  /** The counters of a freshly built or reset action. */
  const Start := Progress(0, 0)

  /** The updates a once action still has to make before it is done. */
  function Remaining(waitFrames: U16, size: nat, p: Progress): int {
    if p.index as int >= size then 0
    else (size - 1 - p.index as int) * (waitFrames as int + 1) + p.counter as int + 1
  }

  /** Each update of a once action that is not done brings it one update
      closer to done, within its bounds. */
  lemma {:induction false} NextCountsDown(waitFrames: U16, size: nat, p: Progress)
    requires size <= 0xFFFF && p.index as int < size && p.counter <= waitFrames
    ensures var q := Next(false, waitFrames, size, p);
            q.index as int <= size && q.counter <= waitFrames &&
            Remaining(waitFrames, size, q) == Remaining(waitFrames, size, p) - 1
  {
    var q := Next(false, waitFrames, size, p);
    var w := waitFrames as int + 1;
    if p.counter == 0 && q.index as int < size {
      var k := size - 1 - p.index as int;
      assert q.index as int == p.index as int + 1;
      assert (k - 1) * w + w == k * w;
    }
  }

  lemma {:induction false} IterateCountsDown(waitFrames: U16, size: nat, n: nat, p: Progress)
    requires size <= 0xFFFF && p.index as int <= size && p.counter <= waitFrames
    requires n <= Remaining(waitFrames, size, p)
    ensures var q := Iterate(false, waitFrames, size, n, p);
            q.index as int <= size && q.counter <= waitFrames &&
            Remaining(waitFrames, size, q) == Remaining(waitFrames, size, p) - n
  {
    if n > 0 {
      NextCountsDown(waitFrames, size, p);
      IterateCountsDown(waitFrames, size, n - 1, Next(false, waitFrames, size, p));
    }
  }

  /** An action that is not done has updates left. */
  lemma RemainingPositive(waitFrames: U16, size: nat, p: Progress)
    requires p.index as int < size
    ensures Remaining(waitFrames, size, p) > 0
  {
    var k := size - 1 - p.index as int;
    assert k * (waitFrames as int + 1) >= 0;
  }

  /** Before its remaining updates run out, a once action is not done. */
  lemma {:induction false} NotDoneBefore(waitFrames: U16, size: nat, m: nat, p: Progress)
    requires size <= 0xFFFF && p.index as int <= size && p.counter <= waitFrames
    requires m < Remaining(waitFrames, size, p)
    ensures Iterate(false, waitFrames, size, m, p).index as int < size
  {
    IterateCountsDown(waitFrames, size, m, p);
  }

  /** Once its remaining updates have run out, a once action is done. */
  lemma {:induction false} DoneAfter(waitFrames: U16, size: nat, n: nat, p: Progress)
    requires size <= 0xFFFF && p.index as int <= size && p.counter <= waitFrames
    requires n == Remaining(waitFrames, size, p)
    ensures Iterate(false, waitFrames, size, n, p).index as int == size
  {
    IterateCountsDown(waitFrames, size, n, p);
    var last := Iterate(false, waitFrames, size, n, p);
    if last.index as int < size {
      RemainingPositive(waitFrames, size, last);
    }
  }

  /** A once action of at most 65535 graphics, started afresh, may be
      updated exactly (size - 1) * (wait + 1) + 1 times: it is not done
      before and is done after. */
  lemma {:induction false} OnceFinishes(waitFrames: U16, size: nat)
    requires 0 < size <= 0xFFFF
    ensures var n := (size - 1) * (waitFrames as int + 1) + 1;
            Iterate(false, waitFrames, size, n, Start).index as int == size &&
            forall m: nat | m < n :: Iterate(false, waitFrames, size, m, Start).index as int < size
  {
    var steps: nat := size - 1;
    var period: nat := waitFrames as int + 1;
    var n: nat := steps * period + 1;
    assert n == Remaining(waitFrames, size, Start);
    DoneAfter(waitFrames, size, n, Start);
    forall m: nat | m < n
      ensures Iterate(false, waitFrames, size, m, Start).index as int < size
    {
      NotDoneBefore(waitFrames, size, m, Start);
    }
  }

  /** A forever action is never done: its index stays below the size. */
  lemma {:induction false} ForeverNeverDone(waitFrames: U16, size: nat, n: nat, p: Progress)
    requires p.index as int < size
    ensures Iterate(true, waitFrames, size, n, p).index as int < size
  {
    if n > 0 {
      ForeverNeverDone(waitFrames, size, n - 1, Next(true, waitFrames, size, p));
    }
  }

  /** sprite_animate_action<Size>: the constant configuration and the two
      counters that update() and reset() change. */
  class SpriteAnimateAction {
    const forever: bool
    const waitFrames: U16
    const sprite: SpritePtr
    const tilesItem: TilesItem
    const graphicIds: seq<U16>
    var index: U16
    var counter: U16

    /** At least one graphic, the index within [0, Size] and below Size for
        a forever action, and the counter within the wait. */
    ghost predicate Valid()
      reads this
    {
      0 < |graphicIds| && index as int <= |graphicIds| && counter <= waitFrames &&
      (forever ==> (index as int) < |graphicIds|)
    }

    /** done(): the last graphic has been shown by a once action. */
    predicate Done()
      reads this
    {
      index as int == |graphicIds|
    }

    function Counters(): Progress
      reads this
    {
      Progress(index, counter)
    }

    /** The private constructor behind once() and forever(). */
    constructor(sprite: SpritePtr, waitFrames: int, tilesItem: TilesItem, forever: bool, graphicIds: seq<U16>)
      requires 0 <= waitFrames <= 0xFFFF
      requires 0 < |graphicIds|
      ensures Valid() && !Done()
      ensures this.forever == forever && this.waitFrames as int == waitFrames && this.sprite == sprite
      ensures this.tilesItem == tilesItem && this.graphicIds == graphicIds
      ensures Counters() == Start
    {
      this.forever := forever;
      this.waitFrames := waitFrames as U16;
      this.sprite := sprite;
      this.tilesItem := tilesItem;
      this.graphicIds := graphicIds;
      this.index := 0;
      this.counter := 0;
    }

    /** once(): an action that stops after the last graphic. */
    static method Once(sprite: SpritePtr, waitFrames: int, tilesItem: TilesItem, graphicIds: seq<U16>)
      returns (action: SpriteAnimateAction)
      requires 0 <= waitFrames <= 0xFFFF
      requires 0 < |graphicIds|
      ensures fresh(action) && action.Valid() && !action.forever
      ensures action.waitFrames as int == waitFrames && action.sprite == sprite
      ensures action.tilesItem == tilesItem && action.graphicIds == graphicIds && action.Counters() == Start
    {
      action := new SpriteAnimateAction(sprite, waitFrames, tilesItem, false, graphicIds);
    }

    /** forever(): an action that starts over after the last graphic. */
    static method Forever(sprite: SpritePtr, waitFrames: int, tilesItem: TilesItem, graphicIds: seq<U16>)
      returns (action: SpriteAnimateAction)
      requires 0 <= waitFrames <= 0xFFFF
      requires 0 < |graphicIds|
      ensures fresh(action) && action.Valid() && action.forever
      ensures action.waitFrames as int == waitFrames && action.sprite == sprite
      ensures action.tilesItem == tilesItem && action.graphicIds == graphicIds && action.Counters() == Start
    {
      action := new SpriteAnimateAction(sprite, waitFrames, tilesItem, true, graphicIds);
    }

    /** reset(): back to the first graphic with no wait; nothing else
        changes. */
    method Reset()
      requires Valid()
      modifies this
      ensures Valid() && Counters() == Start
    {
      index := 0;
      counter := 0;
    }

    /** update(): either one frame less to wait, or the current graphic is
        shown, the wait reloaded and the index advanced. */
    method Update()
      requires Valid() && !Done()
      modifies this, sprite
      ensures Valid()
      ensures Counters() == Next(forever, waitFrames, |graphicIds|, old(Counters()))
      ensures old(counter) != 0 ==> unchanged(sprite)
      ensures old(counter) == 0 ==> sprite.tiles == tilesItem && sprite.graphicsIndex == graphicIds[old(index)] as int
      ensures forever ==> !Done()
    {
      if counter != 0 {
        counter := counter - 1;
      } else {
        counter := waitFrames;
        sprite.SetTiles(tilesItem, graphicIds[index] as int);
        index := ((index as int + 1) % 0x1_0000) as U16;
        if forever && index as int == |graphicIds| {
          index := 0;
        }
      }
    }
  }
}
