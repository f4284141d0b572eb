/** The bytes of one replica file: `fseek` + `fwrite` at an offset, and the replay of
    a transaction's updates. Writing past the end of the data fills the gap with zero
    bytes (POSIX.1-2017, `fseek()`); `fwrite` of zero bytes writes nothing. */
module FileModel {

  type byte = x: int | 0 <= x < 256

  /** `struct _Update`: `block` stands for `buffer` and `blockSize` together. */
  datatype Update = Update(byteOffset: nat, block: seq<byte>) {
    function End(): nat {
      byteOffset + |block|
    }

    predicate Covers(p: nat) {
      byteOffset <= p < End()
    }
  }

  function Zeros(n: nat): (z: seq<byte>)
    ensures |z| == n && forall i | 0 <= i < n :: z[i] == 0
  {
    seq(n, _ => 0)
  }

  /** One `fseek(fp, byteOffset, SEEK_SET)` followed by one `fwrite`. */
  function WriteAt(file: seq<byte>, u: Update): (r: seq<byte>)
    ensures u.block == [] ==> r == file
    ensures u.block != [] ==> |r| == if |file| < u.End() then u.End() else |file|
    ensures forall p | 0 <= p < |r| ::
              r[p] == if u.Covers(p) then u.block[p - u.byteOffset] else if p < |file| then file[p] else 0
  {
    if u.block == [] then
      file
    else
      var gap := if |file| < u.byteOffset then file + Zeros(u.byteOffset - |file|) else file;
      gap[..u.byteOffset] + u.block + (if u.End() < |gap| then gap[u.End()..] else [])
  }

  /** The updates applied in the order of their ids. */
  function ApplyAll(file: seq<byte>, us: seq<Update>): seq<byte> {
    if us == [] then file else WriteAt(ApplyAll(file, us[..|us| - 1]), us[|us| - 1])
  }

  /** Update `i` is the highest-numbered one covering byte `p`. */
  predicate LastWriter(us: seq<Update>, i: nat, p: nat) {
    i < |us| && us[i].Covers(p) && forall j | i < j < |us| :: !us[j].Covers(p)
  }

  predicate Untouched(us: seq<Update>, p: nat) {
    forall j | 0 <= j < |us| :: !us[j].Covers(p)
  }

  /** `n` is the larger of the old length and the ends of the non-empty blocks. */
  ghost predicate IsLength(file: seq<byte>, us: seq<Update>, n: nat) {
    && |file| <= n
    && (forall i | 0 <= i < |us| && us[i].block != [] :: us[i].End() <= n)
    && (n == |file| || exists i | 0 <= i < |us| && us[i].block != [] :: us[i].End() == n)
  }

  /** What a commit promises, without an order of execution: every byte comes from the
      highest-numbered update covering it, else from the old file, else it is zero. */
  ghost predicate LastWriterWins(file: seq<byte>, us: seq<Update>, r: seq<byte>) {
    && IsLength(file, us, |r|)
    && (forall i: nat, p: nat | p < |r| && LastWriter(us, i, p) :: r[p] == us[i].block[p - us[i].byteOffset])
    && (forall p: nat | p < |r| && Untouched(us, p) :: r[p] == if p < |file| then file[p] else 0)
  }

  /** The replay loop computes the last-writer-wins file. */
  lemma {:induction false} ReplayIsLastWriterWins(file: seq<byte>, us: seq<Update>)
    ensures LastWriterWins(file, us, ApplyAll(file, us))
  {
    if us != [] {
      var n := |us| - 1;
      var front, u := us[..n], us[n];
      ReplayIsLastWriterWins(file, front);
      var mid, r := ApplyAll(file, front), ApplyAll(file, us);
      assert r == WriteAt(mid, u);
      LengthStep(file, us, |mid|, |r|);
      forall i: nat, p: nat | p < |r| && LastWriter(us, i, p)
        ensures r[p] == us[i].block[p - us[i].byteOffset]
      {
        if i != n {
          assert !us[n].Covers(p);
          assert LastWriter(front, i, p);
          assert front[i].End() <= |mid|;
        }
      }
      forall p: nat | p < |r| && Untouched(us, p)
        ensures r[p] == if p < |file| then file[p] else 0
      {
        assert Untouched(front, p);
        assert !us[n].Covers(p);
      }
    }
  }

  lemma LengthStep(file: seq<byte>, us: seq<Update>, mid: nat, n: nat)
    requires us != [] && IsLength(file, us[..|us| - 1], mid)
    requires var u := us[|us| - 1]; n == if u.block != [] && mid < u.End() then u.End() else mid
    ensures IsLength(file, us, n)
  {
    var front, last := us[..|us| - 1], |us| - 1;
    if n != |file| {
      if n == mid {
        var i :| 0 <= i < |front| && front[i].block != [] && front[i].End() == mid;
        assert us[i].End() == n;
      } else {
        assert us[last].End() == n;
      }
    }
    forall i | 0 <= i < |us| && us[i].block != []
      ensures us[i].End() <= n
    {
      if i < last {
        assert front[i].End() <= mid;
      }
    }
  }

  /** Some update covers `p` or none does, and then there is a last one. */
  lemma {:induction false} WriterExists(us: seq<Update>, p: nat)
    ensures Untouched(us, p) || exists i: nat :: LastWriter(us, i, p)
  {
    if us != [] {
      var n := |us| - 1;
      if us[n].Covers(p) {
        assert LastWriter(us, n, p);
      } else {
        WriterExists(us[..n], p);
        if i: nat :| LastWriter(us[..n], i, p) {
          assert LastWriter(us, i, p);
        }
      }
    }
  }

  /** The declarative description determines the file. */
  lemma LastWriterWinsIsUnique(file: seq<byte>, us: seq<Update>, a: seq<byte>, b: seq<byte>)
    requires LastWriterWins(file, us, a) && LastWriterWins(file, us, b)
    ensures a == b
  {
    assert |a| == |b|;
    forall p: nat | p < |a|
      ensures a[p] == b[p]
    {
      WriterExists(us, p);
      if !Untouched(us, p) {
        var i: nat :| LastWriter(us, i, p);
      }
    }
  }
}
