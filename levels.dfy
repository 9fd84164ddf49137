/** Level records as the editor and the level-select screen see them, and the two lookups the
    source performs on the level list. */
module Levels {

  datatype Option<T> = None | Some(value: T)

  datatype ObjectKind = BlockKind | SpikeKind | JumpPadKind | JumpOrbKind
  datatype Placement = Placement(kind: ObjectKind, x: int, y: int)

  /** One entry of the level list: `{index, name, difficulty, layout}`. */
  datatype Level = Level(index: int, name: string, difficulty: string, layout: seq<Placement>)

  /** Position of the FIRST level with the given index (the save loop's `break`). */
  function FirstWithIndex(levels: seq<Level>, k: int): (r: Option<nat>)
    ensures r.Some? ==> r.value < |levels| && levels[r.value].index == k
    ensures r.Some? ==> forall j :: 0 <= j < r.value ==> levels[j].index != k
    ensures r.None? ==> forall j :: 0 <= j < |levels| ==> levels[j].index != k
  {
    if levels == [] then None
    else if levels[0].index == k then Some(0)
    else match FirstWithIndex(levels[1..], k)
      case Some(i) => Some(i + 1)
      case None => None
  }

  /** Position of the LAST level with the given index. */
  function LastPos(levels: seq<Level>, k: int): (r: Option<nat>)
    ensures r.Some? ==> r.value < |levels| && levels[r.value].index == k
    ensures r.Some? ==> forall j :: r.value < j < |levels| ==> levels[j].index != k
    ensures r.None? ==> forall j :: 0 <= j < |levels| ==> levels[j].index != k
  {
    if levels == [] then None
    else if levels[|levels| - 1].index == k then Some(|levels| - 1)
    else LastPos(levels[..|levels| - 1], k)
  }

  /** The LAST level with the given index: what a forward scan that keeps overwriting its
      result ends with. */
  function LastWithIndex(levels: seq<Level>, k: int): (r: Option<Level>)
    ensures r.None? <==> forall j :: 0 <= j < |levels| ==> levels[j].index != k
    ensures r.Some? ==> r.value.index == k
  {
    match LastPos(levels, k)
    case Some(i) => Some(levels[i])
    case None => None
  }

  /** save_levels: append when the index lies past the end of the list, otherwise overwrite the
      first level with that index, or change nothing when there is none. */
  function Upsert(levels: seq<Level>, cur: Level): seq<Level>
  {
    if cur.index > |levels| then levels + [cur]
    else match FirstWithIndex(levels, cur.index)
      case Some(i) => levels[i := cur]
      case None => levels
  }

  /** Appending grows the list by exactly one, at the end, and keeps the rest. */
  lemma UpsertAppends(levels: seq<Level>, cur: Level)
    requires cur.index > |levels|
    ensures |Upsert(levels, cur)| == |levels| + 1
    ensures Upsert(levels, cur)[|levels|] == cur
    ensures Upsert(levels, cur)[..|levels|] == levels
  {
  }

  /** Otherwise the length is kept, only the first match is replaced, and with no match the list is unchanged. */
  lemma UpsertReplacesFirst(levels: seq<Level>, cur: Level)
    requires cur.index <= |levels|
    ensures |Upsert(levels, cur)| == |levels|
    ensures forall j :: 0 <= j < |levels| && levels[j].index != cur.index ==> Upsert(levels, cur)[j] == levels[j]
    ensures (forall j :: 0 <= j < |levels| ==> levels[j].index != cur.index) ==> Upsert(levels, cur) == levels
    ensures forall i :: 0 <= i < |levels| && levels[i].index == cur.index
                        && (forall j :: 0 <= j < i ==> levels[j].index != cur.index) ==>
              Upsert(levels, cur) == levels[i := cur]
  {
  }

  /** Levels numbered 1..n in list order, as the editor numbers new levels. */
  predicate Numbered(levels: seq<Level>)
  {
    forall j :: 0 <= j < |levels| ==> levels[j].index == j + 1
  }

  lemma NumberedLast(levels: seq<Level>, k: int)
    requires Numbered(levels) && 1 <= k <= |levels|
    ensures LastWithIndex(levels, k) == Some(levels[k - 1])
  {
    var p := LastPos(levels, k);
    assert p.Some? by { assert levels[k - 1].index == k; }
  }

  /** Saving a level numbered 1..n+1 into a list numbered 1..n keeps the numbering, and loading
      that index afterwards finds the saved level: save and load agree. */
  lemma {:induction false} SaveThenLoad(levels: seq<Level>, cur: Level)
    requires Numbered(levels) && 1 <= cur.index <= |levels| + 1
    ensures Numbered(Upsert(levels, cur))
    ensures LastWithIndex(Upsert(levels, cur), cur.index) == Some(cur)
  {
    var u := Upsert(levels, cur);
    if cur.index <= |levels| {
      var first := FirstWithIndex(levels, cur.index);
      assert levels[cur.index - 1].index == cur.index;
      assert first.Some? && first.value == cur.index - 1;
    }
    assert Numbered(u);
    NumberedLast(u, cur.index);
  }

  /** With duplicate indices the two disagree: save overwrites the first match, load reads the last. */
  lemma DuplicatesDefeatSaveThenLoad()
    ensures var a, b := Level(1, "a", "1", []), Level(1, "b", "1", []);
            var cur := Level(1, "c", "1", []);
            LastWithIndex(Upsert([a, b], cur), 1) == Some(b)
  {
    var a, b := Level(1, "a", "1", []), Level(1, "b", "1", []);
    var cur := Level(1, "c", "1", []);
    assert Upsert([a, b], cur) == [cur, b];
  }
}
