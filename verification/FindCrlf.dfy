/**
 The word-at-a-time scanner of lib/find-crlf.c.  Eight bytes are tested at once
 by adding a constant and looking at the carries; the test never misses a
 terminator, and where it reports one that is not there the scan just goes on.
 */
module FindCrlf {
  import opened Wrappers

  const CR: bv8 := 13
  const LF: bv8 := 10
  const NUL: bv8 := 0

  const MAGIC_BITS: bv64 := 0x7efefefefefefeff
  const CR_CHARMASK: bv64 := 0x0d0d0d0d0d0d0d0d
  const LF_CHARMASK: bv64 := 0x0a0a0a0a0a0a0a0a

  predicate IsTerminator(c: bv8) { c == CR || c == LF || c == NUL }

  /** The carries of adding the magic bits: zero if no byte of `w` is zero. */
  function Holes(w: bv64): bv64 { ((w + MAGIC_BITS) ^ !w) & !MAGIC_BITS }

  predicate MayHaveTerminator(w: bv64) {
    Holes(w) != 0 || Holes(w ^ CR_CHARMASK) != 0 || Holes(w ^ LF_CHARMASK) != 0
  }

  /** Byte `k` of a word is zero; written out, since the shift is a constant. */
  predicate ZeroByte(w: bv64, k: nat)
    requires k < 8
  {
    if k == 0 then w & 0xff == 0
    else if k == 1 then w & 0xff00 == 0
    else if k == 2 then w & 0xff_0000 == 0
    else if k == 3 then w & 0xff00_0000 == 0
    else if k == 4 then w & 0xff_0000_0000 == 0
    else if k == 5 then w & 0xff00_0000_0000 == 0
    else if k == 6 then w & 0xff_0000_0000_0000 == 0
    else w & 0xff00_0000_0000_0000 == 0
  }

  /** No false negatives. */
  lemma ZeroByteMakesHole(w: bv64, k: nat)
    requires k < 8 && ZeroByte(w, k)
    ensures Holes(w) != 0
  {
  }

  /** The eight bytes read at once, in the order of memory from the lowest one. */
  function Word(b0: bv8, b1: bv8, b2: bv8, b3: bv8, b4: bv8, b5: bv8, b6: bv8, b7: bv8): bv64 {
    (b0 as bv64) | (b1 as bv64 << 8) | (b2 as bv64 << 16) | (b3 as bv64 << 24)
    | (b4 as bv64 << 32) | (b5 as bv64 << 40) | (b6 as bv64 << 48) | (b7 as bv64 << 56)
  }

  function WordOf(b: seq<bv8>): bv64
    requires |b| == 8
  {
    Word(b[0], b[1], b[2], b[3], b[4], b[5], b[6], b[7])
  }

  lemma NulInWord(b: seq<bv8>, k: nat)
    requires |b| == 8 && k < 8 && b[k] == NUL
    ensures ZeroByte(WordOf(b), k)
  {
  }

  lemma CrInWord(b: seq<bv8>, k: nat)
    requires |b| == 8 && k < 8 && b[k] == CR
    ensures ZeroByte(WordOf(b) ^ CR_CHARMASK, k)
  {
  }

  lemma LfInWord(b: seq<bv8>, k: nat)
    requires |b| == 8 && k < 8 && b[k] == LF
    ensures ZeroByte(WordOf(b) ^ LF_CHARMASK, k)
  {
  }

  /** A word with a terminator in any of its bytes is never passed over. */
  lemma NeverMissed(b: seq<bv8>, k: nat)
    requires |b| == 8 && k < 8 && IsTerminator(b[k])
    ensures MayHaveTerminator(WordOf(b))
  {
    if b[k] == NUL {
      NulInWord(b, k);
      ZeroByteMakesHole(WordOf(b), k);
    } else if b[k] == CR {
      CrInWord(b, k);
      ZeroByteMakesHole(WordOf(b) ^ CR_CHARMASK, k);
    } else {
      LfInWord(b, k);
      ZeroByteMakesHole(WordOf(b) ^ LF_CHARMASK, k);
    }
  }

  /** The plain scan. */
  function FirstTerminator(s: seq<bv8>): Option<nat> {
    if s == [] then None
    else if IsTerminator(s[0]) then Some(0)
    else
      var rest := FirstTerminator(s[1..]);
      if rest.None? then None else Some(rest.value + 1)
  }

  lemma {:induction false} FirstTerminatorIs(s: seq<bv8>, r: Option<nat>)
    requires r.None? ==> forall i :: 0 <= i < |s| ==> !IsTerminator(s[i])
    requires r.Some? ==> r.value < |s| && IsTerminator(s[r.value]) && forall i :: 0 <= i < r.value ==> !IsTerminator(s[i])
    ensures FirstTerminator(s) == r
  {
    if s != [] && !IsTerminator(s[0]) {
      FirstTerminatorIs(s[1..], if r.None? then None else Some(r.value - 1));
    }
  }

  /** The word at `i`, as a little or a big endian machine reads it. */
  function Load(b: seq<bv8>, bigEndian: bool): bv64
    requires |b| == 8
  {
    if bigEndian then WordOf([b[7], b[6], b[5], b[4], b[3], b[2], b[1], b[0]]) else WordOf(b)
  }

  predicate HasTerminator(b: seq<bv8>) { exists k :: 0 <= k < |b| && IsTerminator(b[k]) }

  lemma NeverMissedInLoad(b: seq<bv8>, bigEndian: bool)
    requires |b| == 8 && HasTerminator(b)
    ensures MayHaveTerminator(Load(b, bigEndian))
  {
    var k :| 0 <= k < |b| && IsTerminator(b[k]);
    if bigEndian {
      var r := [b[7], b[6], b[5], b[4], b[3], b[2], b[1], b[0]];
      assert r[7 - k] == b[k];
      NeverMissed(r, 7 - k);
    } else {
      NeverMissed(b, k);
    }
  }

  /** The test of one word; a hit may be a false alarm, a miss is certain. */
  method TestWord(b: seq<bv8>, bigEndian: bool) returns (hit: bool)
    requires |b| == 8
    ensures HasTerminator(b) ==> hit
  {
    if HasTerminator(b) {
      NeverMissedInLoad(b, bigEndian);
    }
    hit := MayHaveTerminator(Load(b, bigEndian));
  }

  ghost predicate NoneBefore(a: array<bv8>, i: nat)
    requires i <= a.Length
    reads a
  {
    forall j :: 0 <= j < i ==> !IsTerminator(a[j])
  }

  /** The scan of single bytes from `i` up to `limit`. */
  method ScanBytes(a: array<bv8>, i: nat, limit: nat) returns (r: Option<nat>)
    requires i <= limit <= a.Length && NoneBefore(a, i)
    ensures r.None? ==> NoneBefore(a, limit)
    ensures r.Some? ==> r.value < limit && IsTerminator(a[r.value]) && NoneBefore(a, r.value)
  {
    var k := i;
    while k < limit
      invariant i <= k <= limit && NoneBefore(a, k)
    {
      if IsTerminator(a[k]) {
        return Some(k);
      }
      k := k + 1;
    }
    return None;
  }

  /** The scan of whole words from the aligned position `start`, leaving at most the
      last eight bytes.  Words are only read at aligned addresses and inside the buffer. */
  method ScanWords(a: array<bv8>, start: nat, n: nat, base: nat, bigEndian: bool) returns (r: Option<nat>, i: nat)
    requires start <= n <= a.Length && NoneBefore(a, start) && (start < n ==> (base + start) % 8 == 0)
    ensures r.None? ==> start <= i <= n && n - i <= 8 && NoneBefore(a, i)
    ensures r.Some? ==> r.value < n && IsTerminator(a[r.value]) && NoneBefore(a, r.value)
  {
    i, r := start, None;
    while n - i > 8
      invariant start <= i <= n && NoneBefore(a, i) && (i < n ==> (base + i) % 8 == 0) && r.None?
    {
      assert (base + i) % 8 == 0 && i + 8 <= n;
      ghost var word := a[i..i + 8];
      var hit := TestWord(a[i..i + 8], bigEndian);
      if hit {
        r := ScanBytes(a, i, i + 8);
        if r.Some? {
          return;
        }
      } else {
        assert forall j :: i <= j < i + 8 ==> a[j] == word[j - i];
      }
      i := i + 8;
    }
  }

  /** find_cr_or_lf_or_nul: `base` is the address of the buffer. */
  method FindCrOrLfOrNul(a: array<bv8>, n: nat, base: nat, bigEndian: bool) returns (r: Option<nat>)
    requires n <= a.Length
    ensures r == FirstTerminator(a[..n])
    ensures r.None? ==> NoneBefore(a, n)
    ensures r.Some? ==> r.value < n && IsTerminator(a[r.value]) && NoneBefore(a, r.value)
  {
    var i: nat := 0;
    while i < n && (base + i) % 8 != 0
      invariant i <= n && NoneBefore(a, i)
    {
      if IsTerminator(a[i]) {
        FirstTerminatorIs(a[..n], Some(i));
        return Some(i);
      }
      i := i + 1;
    }
    r, i := ScanWords(a, i, n, base, bigEndian);
    if r.None? {
      r := ScanBytes(a, i, n);
    }
    FirstTerminatorIs(a[..n], r);
  }
}
