/** What the PC makes of a HELLO depends only on fields 1 to 5, not on how the map is laid out. */
module HelloOrder {
  import opened Bytes
  import opened Common
  import opened Crypto
  import opened Cbor
  import opened Sessions

  /** An entry under an integer key the HELLO does not use. */
  predicate Unknown(e: Entry<Blob>) {
    e.key.Int? && !(1 <= e.key.n <= 5)
  }

  /** Any reordering of the entries gets the same outcome, malformed maps included. */
  lemma ReorderedHello(s: State, es: seq<Entry<Blob>>, fs: seq<Entry<Blob>>, now: u64, newEph: Option<Secret>)
    requires multiset(es) == multiset(fs)
    ensures OnHello(s, Clear(Map(es)), now, newEph) == OnHello(s, Clear(Map(fs)), now, newEph)
  {
    PermutedEntriesReadAlike(es, fs);
    assert ReadHello(Clear(Map(es))) == ReadHello(Clear(Map(fs)));
  }

  /** Any reordering with further entries under unknown, distinct integer keys gets the same outcome. */
  lemma PaddedHello(s: State, es: seq<Entry<Blob>>, extra: seq<Entry<Blob>>, fs: seq<Entry<Blob>>,
                    now: u64, newEph: Option<Secret>)
    requires FromValue(Map(es)).Ok? && DistinctIntKeys(es + extra) && multiset(fs) == multiset(es + extra)
    requires forall i :: 0 <= i < |extra| ==> Unknown(extra[i])
    ensures OnHello(s, Clear(Map(es)), now, newEph) == OnHello(s, Clear(Map(fs)), now, newEph)
  {
    ReorderedHello(s, es + extra, fs, now, newEph);
    ReaderContents(es, |es|);
    assert es[..|es|] == es;
    MapReads(es);
    MapReads(es + extra);
    SameKnownFields(FromValue(Map(es)), FromValue(Map(es + extra)), es, extra);
    assert ReadHello(Clear(Map(es))) == ReadHello(Clear(Map(es + extra)));
  }

  lemma SameKnownFields(a: Result<Reader<Blob>>, b: Result<Reader<Blob>>, es: seq<Entry<Blob>>, extra: seq<Entry<Blob>>)
    requires a.Ok? && b.Ok? && Holds(a.value, es) && Holds(b.value, es + extra)
    requires forall i :: 0 <= i < |extra| ==> Unknown(extra[i])
    ensures HelloOf(a) == HelloOf(b)
  {
    forall k: u64 | 1 <= k <= 5 ensures Get(a.value, k) == Get(b.value, k) {
      if k in b.value {
        var i :| 0 <= i < |es + extra| && (es + extra)[i] == Entry(Int(k), b.value[k]);
        assert i < |es|;
        assert (es + extra)[i] == es[i];
      }
      forall i | 0 <= i < |es| && es[i].key == Int(k) ensures k in b.value {
        assert (es + extra)[i] == es[i];
      }
    }
    assert Get(a.value, 1) == Get(b.value, 1) && Get(a.value, 2) == Get(b.value, 2) &&
      Get(a.value, 3) == Get(b.value, 3);
    assert Get(a.value, 4) == Get(b.value, 4) && Get(a.value, 5) == Get(b.value, 5);
  }
}
