/** The study-area block list: each selected block's GEOID read with `int(...)`. */
module Membership {
  import opened Options
  import opened Decimal

  /** Every GEOID text is something `int(...)` accepts. */
  predicate AllParse(geoids: seq<string>) {
    forall i :: 0 <= i < |geoids| ==> ParseInt(geoids[i]).Some?
  }

  /**
   * The cursor loop that appends `int(GEOID)` for each selected block.
   * A GEOID that `int` rejects raises and ends the script: None here.
   * Duplicates and the cursor's order are kept, as `append` keeps them.
   */
  method BuildBlockList(geoids: seq<string>) returns (blockList: Option<seq<int>>)
    ensures blockList.Some? <==> AllParse(geoids)
    ensures blockList.Some? ==> |blockList.value| == |geoids|
    ensures blockList.Some? ==>
      forall i :: 0 <= i < |geoids| ==> ParseInt(geoids[i]) == Some(blockList.value[i])
  {
    var list: seq<int> := [];
    var i := 0;
    while i < |geoids|
      invariant 0 <= i <= |geoids|
      invariant |list| == i
      invariant forall j :: 0 <= j < i ==> ParseInt(geoids[j]) == Some(list[j])
    {
      var id := ParseInt(geoids[i]);
      if id.None? {
        return None;
      }
      list := list + [id.value];
      i := i + 1;
    }
    return Some(list);
  }
}
