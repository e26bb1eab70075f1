/** The PC's ring of staged clips (stage.rs). */
module Stage {
  import opened Bytes
  import opened Common
  import Utf8

  const PREVIEW_CHARS := 120

  datatype StagedClip = StagedClip(stageId: seq<byte>, contentType: ContentType, body: seq<byte>, copiedAt: u64)

  datatype StageMeta =
    StageMeta(stageId: seq<byte>, contentType: ContentType, preview: string, size: u32, copiedAt: u64)

  /** The last `n` elements of `s`, or all of them. */
  function LastN<T>(s: seq<T>, n: nat): seq<T> {
    if |s| <= n then s else s[|s| - n..]
  }

  // ------------------------------------------------------------------
  // Previews
  // ------------------------------------------------------------------

  function Flatten(c: char): char {
    if c == '\n' || c == '\r' then ' ' else c
  }

  /** The first `PREVIEW_CHARS` characters of the body, on one line. */
  function Preview(body: seq<byte>): (p: string)
    ensures |p| <= PREVIEW_CHARS
    ensures '\n' !in p && '\r' !in p
    ensures var text := Utf8.DecodeLossy(body);
      |p| <= |text| && (|p| < |text| ==> |p| == PREVIEW_CHARS) &&
      forall i :: 0 <= i < |p| ==> p[i] == text[i] || (p[i] == ' ' && text[i] in {'\n', '\r'})
  {
    var text := Utf8.DecodeLossy(body);
    seq(if |text| < PREVIEW_CHARS then |text| else PREVIEW_CHARS, i requires 0 <= i < |text| => Flatten(text[i]))
  }

  /** `preview_of`: the character loop. */
  method PreviewOf(body: seq<byte>) returns (out: string)
    ensures out == Preview(body)
  {
    var text := Utf8.DecodeLossy(body);
    out := [];
    var i := 0;
    while i < |text|
      invariant 0 <= i <= |text| && i <= PREVIEW_CHARS
      invariant out == Preview(body)[..i]
    {
      if i == PREVIEW_CHARS {
        break;
      }
      out := out + [if text[i] == '\n' || text[i] == '\r' then ' ' else text[i]];
      i := i + 1;
    }
  }

  // ------------------------------------------------------------------
  // The ring
  // ------------------------------------------------------------------

  function MetaOf(c: StagedClip): StageMeta {
    StageMeta(c.stageId, c.contentType, Preview(c.body), |c.body| % 0x1_0000_0000, c.copiedAt)
  }

  /** `StageRing::list`: newest first. */
  function List(items: seq<StagedClip>): (ms: seq<StageMeta>)
    ensures |ms| == |items|
  {
    seq(|items|, i requires 0 <= i < |items| => MetaOf(items[|items| - 1 - i]))
  }

  /** `StageRing::get`: the oldest staged clip with that id. */
  function Find(items: seq<StagedClip>, id: seq<byte>): (r: Option<StagedClip>)
    ensures r.Some? ==> r.value in items && r.value.stageId == id
    ensures r.None? ==> Absent(items, id)
  {
    if items == [] then None
    else if items[0].stageId == id then Some(items[0]) else Find(items[1..], id)
  }

  /** No clip has that id. */
  predicate Absent(items: seq<StagedClip>, id: seq<byte>) {
    forall i :: 0 <= i < |items| ==> items[i].stageId != id
  }

  /** It is the oldest one, and there is none exactly when no clip has the id. */
  lemma {:induction false} FindsOldest(items: seq<StagedClip>, id: seq<byte>)
    ensures Find(items, id).None? <==> Absent(items, id)
    ensures Find(items, id).Some? ==>
      exists i :: 0 <= i < |items| && items[i] == Find(items, id).value && Absent(items[..i], id)
  {
    if items != [] && items[0].stageId == id {
      assert items[0] == Find(items, id).value && Absent(items[..0], id);
    } else if items != [] {
      var rest := items[1..];
      FindsOldest(rest, id);
      if Find(items, id).Some? {
        var i :| 0 <= i < |rest| && rest[i] == Find(rest, id).value && Absent(rest[..i], id);
        assert items[i + 1] == rest[i] && items[..i + 1] == [items[0]] + rest[..i];
        assert Absent(items[..i + 1], id);
      }
    }
  }

  predicate Fits(c: StagedClip) {
    |c.body| <= MAX_TEXT_CLIP
  }

  /** What every ring holds: the last `depth` accepted clips, each within the clip limit. */
  ghost predicate RingOf(items: seq<StagedClip>, depth: nat, accepted: seq<StagedClip>) {
    items == LastN(accepted, depth) && forall i :: 0 <= i < |accepted| ==> Fits(accepted[i])
  }

  class StageRing {
    var items: seq<StagedClip>
    const depth: nat
    ghost var accepted: seq<StagedClip>   // every clip accepted since the last clear, oldest first

    ghost predicate Valid()
      reads this
    {
      depth >= 1 && RingOf(items, depth, accepted)
    }

    constructor (depth: nat)
      ensures Valid() && accepted == [] && this.depth == if depth < 1 then 1 else depth
    {
      this.items := [];
      this.depth := if depth < 1 then 1 else depth;
      this.accepted := [];
    }

    method PushWithId(stageId: seq<byte>, contentType: ContentType, body: seq<byte>, now: u64)
      returns (r: Result<()>)
      requires Valid()
      modifies this
      ensures Valid()
      ensures r.Ok? <==> |body| <= MAX_TEXT_CLIP
      ensures accepted ==
        if r.Ok? then old(accepted) + [StagedClip(stageId, contentType, body, now)] else old(accepted)
      ensures r.Err? ==> items == old(items)
    {
      if |body| > MAX_TEXT_CLIP {
        return Err(FrameTooLarge(|body| % 0x1_0000_0000));
      }
      if |items| == depth {
        items := items[1..];
      }
      var clip := StagedClip(stageId, contentType, body, now);
      items := items + [clip];
      accepted := accepted + [clip];
      return Ok(());
    }

    method Clear()
      requires Valid()
      modifies this
      ensures Valid() && accepted == [] && items == []
    {
      items := [];
      accepted := [];
    }
  }

  ghost predicate DistinctIds(clips: seq<StagedClip>) {
    forall i, j :: 0 <= i < j < |clips| ==> clips[i].stageId != clips[j].stageId
  }

  /** With distinct ids a staged clip is found, and it is the one with that id. */
  lemma {:induction false} FindDistinct(items: seq<StagedClip>, i: nat)
    requires i < |items| && DistinctIds(items)
    ensures Find(items, items[i].stageId) == Some(items[i])
  {
    if i > 0 {
      assert items[0].stageId != items[i].stageId;
      FindDistinct(items[1..], i - 1);
    }
  }

  /** Entry `i` of the list shown after `before` describes the i-th newest accepted clip. */
  lemma ListedClip(before: seq<StagedClip>, depth: nat, i: nat)
    requires i < |List(LastN(before, depth))|
    ensures i < |before| && i < depth
    ensures List(LastN(before, depth))[i] == MetaOf(before[|before| - 1 - i])
  {
  }

  /** An entry of the list can still be fetched, body and all, after `more` further accepted clips
      exactly while fewer than `depth` clips are newer than it. */
  lemma FetchWindow(before: seq<StagedClip>, more: seq<StagedClip>, depth: nat, i: nat)
    requires DistinctIds(before + more) && i < |List(LastN(before, depth))|
    ensures var clip := before[|before| - 1 - i];
      var got := Find(LastN(before + more, depth), List(LastN(before, depth))[i].stageId);
      got == if i + |more| < depth then Some(clip) else None
  {
    ListedClip(before, depth, i);
    var all, at := before + more, |before| - 1 - i;
    assert all[at] == before[at];
    FoundOrEvicted(all, depth, at);
  }

  /** A clip is found under its id exactly while fewer than `depth` clips are newer. */
  lemma FoundOrEvicted(all: seq<StagedClip>, depth: nat, at: nat)
    requires DistinctIds(all) && at < |all|
    ensures Find(LastN(all, depth), all[at].stageId) == if |all| <= at + depth then Some(all[at]) else None
  {
    if |all| <= at + depth { StillStaged(all, depth, at); } else { Evicted(all, depth, at); }
  }

  lemma StillStaged(all: seq<StagedClip>, depth: nat, at: nat)
    requires DistinctIds(all) && at < |all| <= at + depth
    ensures Find(LastN(all, depth), all[at].stageId) == Some(all[at])
  {
    var ring := LastN(all, depth);
    var cut := |all| - |ring|;
    assert ring == all[cut..];
    forall i, j | 0 <= i < j < |ring| ensures ring[i].stageId != ring[j].stageId {
      assert ring[i] == all[cut + i] && ring[j] == all[cut + j];
    }
    FindDistinct(ring, at - cut);
  }

  lemma Evicted(all: seq<StagedClip>, depth: nat, at: nat)
    requires DistinctIds(all) && at + depth < |all|
    ensures Find(LastN(all, depth), all[at].stageId) == None
  {
    var ring := LastN(all, depth);
    var cut := |all| - depth;
    forall j | 0 <= j < |ring| ensures ring[j].stageId != all[at].stageId {
      assert ring[j] == all[cut + j];
    }
  }
}
