/** Opening a manifest directory: replaying the named manifest, telling a torn tail
    from damage, and choosing numbers no file on disk has. */
module ManifestOpen {
  import opened Common
  import opened Codec
  import opened WalRecord
  import opened Manifest
  import opened ManifestEdits
  import opened ManifestLog

  /** Rebuilds the version and counters record by record. */
  method ReplayRecords(rs: seq<Logged>) returns (r: Option<State>)
    ensures r == Replay(Initial(), rs)
  {
    hide ApplyEdit;
    var s := Initial();
    var i := 0;
    assert rs[0..] == rs;
    while i < |rs|
      invariant 0 <= i <= |rs| && |s.files| == NUM_LEVELS && Replay(Initial(), rs) == Replay(s, rs[i..])
    {
      assert rs[i..][0] == rs[i] && rs[i..][1..] == rs[i + 1..];
      var v := Apply(s.files, rs[i].edit);
      if v.None? {
        return None;
      }
      s := State(v.value, rs[i].logNumber, rs[i].lastSeq);
      i := i + 1;
    }
    return Some(s);
  }

  /** What follows the last whole record is refused as damage: a record that ends
      before the file does. */
  predicate Damaged(tail: Bytes) {
    |tail| >= HEADER_LEN && HEADER_LEN + GetLE(tail[4..8]) < |tail|
  }

  lemma {:induction false} TailOfCut(crc: Checksum, ps: seq<Bytes>, n: nat)
    requires Fits(ps) && n <= |Frames(crc, ps)|
    ensures var k := WalRecord.Whole(ps, n);
            && |Frames(crc, ps[..k])| <= n
            && (if k == |ps| then n == |Frames(crc, ps[..k])|
                else n - |Frames(crc, ps[..k])| < |Frame(crc, ps[k])|
                     && Frames(crc, ps)[|Frames(crc, ps[..k])|..n] == Frame(crc, ps[k])[..n - |Frames(crc, ps[..k])|])
  {
    hide Frame;
    if ps == [] {
      assert ps[..0] == [];
    } else {
      var f := Frame(crc, ps[0]);
      var file := Frames(crc, ps);
      if n < |f| {
        assert ps[..0] == [];
        assert file[..n] == f[..n];
      } else {
        var m := n - |f|;
        TailOfCut(crc, ps[1..], m);
        var k := WalRecord.Whole(ps[1..], m);
        assert ps[..k + 1][1..] == ps[1..][..k];
        var a := |Frames(crc, ps[1..][..k])|;
        assert |Frames(crc, ps[..k + 1])| == |f| + a;
        if k < |ps| - 1 {
          assert file[|f| + a..n] == Frames(crc, ps[1..])[a..m];
        }
      }
    }
  }

  /** A crash is never mistaken for damage: whatever prefix of a written manifest is
      found, what follows its whole records is accepted as torn. */
  lemma {:induction false} TornNotDamaged(crc: Checksum, ps: seq<Bytes>, n: nat)
    requires Fits(ps) && n <= |Frames(crc, ps)|
    ensures var cut := Frames(crc, ps)[..n]; !Damaged(cut[CleanLen(crc, cut)..])
  {
    hide Frames, CleanLen, Records, WalRecord.Whole, GetLE;
    var cut := Frames(crc, ps)[..n];
    TruncatedScan(crc, ps, n);
    TailOfCut(crc, ps, n);
    var k := WalRecord.Whole(ps, n);
    var a := |Frames(crc, ps[..k])|;
    var tail := cut[a..];
    assert tail == Frames(crc, ps)[a..n];
    if k < |ps| && |tail| >= HEADER_LEN {
      LengthField(crc, ps[k], |tail|);
    }
  }

  lemma LengthField(crc: Checksum, p: Bytes, n: nat)
    requires |p| <= MAX_U32 && HEADER_LEN <= n <= |Frame(crc, p)|
    ensures GetLE(Frame(crc, p)[..n][4..8]) == |p|
  {
    hide PutLE, GetLE;
    var f, sum, length := Frame(crc, p), PutLE(crc(PutLE(|p|, 4) + p) as nat, 4), PutLE(|p|, 4);
    assert f == sum + length + p;
    assert f[..n][4..8] == f[4..8] == length;
    Pow256Values();
    LERoundTrip(|p|, 4);
  }

  /** Moves the next number past every table and manifest in the directory; a name that
      is neither has no number. */
  method PastEveryFile(logged: nat, names: seq<Option<nat>>) returns (next: nat)
    ensures next >= logged && forall i | 0 <= i < |names| && names[i].Some? :: names[i].value < next
    ensures next == logged || Some(next - 1) in names
  {
    next := logged;
    var i := 0;
    while i < |names|
      invariant 0 <= i <= |names| && next >= logged
      invariant forall j | 0 <= j < i && names[j].Some? :: names[j].value < next
      invariant next == logged || (next > 0 && Some((next - 1) as nat) in names)
    {
      if names[i].Some? && names[i].value >= next {
        next := names[i].value + 1;
        assert names[i] == Some((next - 1) as nat);
      }
      i := i + 1;
    }
  }
}
