/** Model of the round-robin voice allocator of src/voiceAllocator.h and
    src/voiceAllocator.cpp.

    The allocator keeps three fixed 8-slot arrays (voice pointers, in-use
    flags, recorded notes), the voice count it was built with and a rotating
    cursor `nextVoice`. Voices themselves are not modelled: every call the
    allocator makes on one is appended to a ghost log.

    The class `Allocator` is proved against pure functions over a `Pool`
    snapshot (`AfterNoteOn`, `AfterNoteOff`, `Claim`); the lemmas below state
    what the allocation policy guarantees over whole sequences of calls. */
module VoiceAllocation {

  datatype Option<T> = None | Some(value: T)

  /** Every array of the allocator has this many slots, whatever the voice count. */
  const PoolSize: nat := 8

  /** Identity of a Voice object (the pointer the allocator holds). */
  type VoiceId = nat

  /** A call the allocator makes on a Voice. */
  datatype Call = SetFrequency(hz: real) | NoteOn | NoteOff

  /** One call on a voice: the slot it went through and the voice that received it. */
  datatype VoiceCall = VoiceCall(slot: nat, voice: VoiceId, call: Call)

  /** The slot state of an allocator: in-use flags, recorded notes and the cursor `nextVoice`. */
  datatype Pool = Pool(inUse: seq<bool>, notes: seq<real>, cursor: int)

  /** The result of a run of calls: the final pool and, per call, the slot its noteOn claimed. */
  datatype Trace = Trace(final: Pool, claims: seq<Option<nat>>)

  /** How many slots the loops bounded by `i < nVoices && i < 8` visit. */
  function ActiveSlots(n: int): (m: nat)
    ensures m <= PoolSize
    ensures n <= 0 ==> m == 0
    ensures 0 <= n <= PoolSize ==> m == n
    ensures PoolSize <= n ==> m == PoolSize
  {
    if n <= 0 then 0 else if n < PoolSize then n else PoolSize
  }

  /** The shape every reachable pool has for voice count n: eight slots, the
      cursor inside [0, n) (or 0 when there are no voices), and no slot at or
      beyond n ever in use. */
  predicate Shaped(p: Pool, n: int) {
    |p.inUse| == PoolSize && |p.notes| == PoolSize &&
    (if 1 <= n then 0 <= p.cursor < n else p.cursor == 0) &&
    forall i :: 0 <= i < PoolSize && n <= i ==> !p.inUse[i]
  }

  /** Number of slots in use. */
  function CountInUse(s: seq<bool>): (c: nat)
    ensures c <= |s|
    ensures c == 0 <==> forall i :: 0 <= i < |s| ==> !s[i]
  {
    if s == [] then 0 else (if s[0] then 1 else 0) + CountInUse(s[1..])
  }

  /** The slot `offset` steps after the cursor, counting modulo n. */
  function CyclicSlot(cursor: int, offset: int, n: int): (j: int)
    requires 1 <= n
    ensures 0 <= j < n
  {
    (cursor + offset) % n
  }

  /** The slot noteOn's loop probes at `offset` steps after the cursor, within
      one lap: `i % nVoices` with `i = nextVoice + offset`, written without the
      division (`ProbeIsMod` shows the two agree). */
  function Probe(cursor: int, offset: int, n: int): (j: int)
    requires 0 <= cursor < n && 0 <= offset < n
    ensures 0 <= j < n
  {
    if cursor + offset < n then cursor + offset else cursor + offset - n
  }

  /** The cursor after a successful noteOn: `(nextVoice + 1) % nVoices`,
      written without the division (`AdvanceIsMod` shows the two agree). */
  function Advance(cursor: int, n: int): (r: int)
    requires 0 <= cursor < n
    ensures 0 <= r < n
  {
    if cursor + 1 < n then cursor + 1 else 0
  }

  /** The first offset at or after k, in the probe order of noteOn's loop, whose slot is free.
      Every offset before it (from k on) hits a busy slot; None means all remaining ones do. */
  function ProbeFrom(inUse: seq<bool>, n: int, cursor: int, k: int): (r: Option<int>)
    requires n <= |inUse| && 0 <= cursor < n && 0 <= k <= n
    decreases n - k
    ensures r.Some? ==> k <= r.value < n && !inUse[Probe(cursor, r.value, n)]
    ensures r.Some? ==> forall e :: k <= e < r.value ==> inUse[Probe(cursor, e, n)]
    ensures r.None? <==> forall e :: k <= e < n ==> inUse[Probe(cursor, e, n)]
  {
    if k == n then None
    else if !inUse[Probe(cursor, k, n)] then Some(k)
    else ProbeFrom(inUse, n, cursor, k + 1)
  }

  /** The slot noteOn claims from the given flags and cursor: never a busy one,
      and None exactly when every one of the n slots is busy (or there are none). */
  function Claim(inUse: seq<bool>, n: int, cursor: int): (r: Option<nat>)
    requires |inUse| == PoolSize && n <= PoolSize
    requires 1 <= n ==> 0 <= cursor < n
    ensures r.Some? ==> 1 <= n && r.value < n && !inUse[r.value]
    ensures r.None? <==> forall i :: 0 <= i < n ==> inUse[i]
  {
    if n < 1 then None
    else
      match ProbeFrom(inUse, n, cursor, 0)
      case None =>
        forall i | 0 <= i < n ensures inUse[i] {
          var e := if cursor <= i then i - cursor else i - cursor + n;
          assert Probe(cursor, e, n) == i;
        }
        None
      case Some(d) => Some(Probe(cursor, d, n))
  }

  /** Probing from k0 over busy slots up to a free one at offset k stops at k. */
  lemma {:induction false} ProbeStops(inUse: seq<bool>, n: int, cursor: int, k0: int, k: int)
    requires |inUse| == PoolSize && 1 <= n <= PoolSize && 0 <= cursor < n && 0 <= k0 <= k < n
    requires forall e :: k0 <= e < k ==> inUse[Probe(cursor, e, n)]
    requires !inUse[Probe(cursor, k, n)]
    ensures ProbeFrom(inUse, n, cursor, k0) == Some(k)
    decreases k - k0
  {
    if k0 < k {
      ProbeStops(inUse, n, cursor, k0 + 1, k);
    }
  }

  /** noteOn's loop finds a free slot at offset k after k busy ones: that is
      the slot `Claim` names. */
  lemma ProbeFound(inUse: seq<bool>, n: int, cursor: int, k: int)
    requires |inUse| == PoolSize && 1 <= n <= PoolSize && 0 <= cursor < n && 0 <= k < n
    requires forall e :: 0 <= e < k ==> inUse[Probe(cursor, e, n)]
    requires !inUse[Probe(cursor, k, n)]
    ensures Claim(inUse, n, cursor) == Some(Probe(cursor, k, n))
  {
    ProbeStops(inUse, n, cursor, 0, k);
  }

  /** noteOn's loop ran out of offsets with nothing found: `Claim` finds nothing either. */
  lemma ProbeExhausted(inUse: seq<bool>, n: int, cursor: int)
    requires |inUse| == PoolSize && 1 <= n <= PoolSize && 0 <= cursor < n
    requires forall e :: 0 <= e < n ==> inUse[Probe(cursor, e, n)]
    ensures Claim(inUse, n, cursor) == None
  {
  }

  /** The pool after `noteOn(f)`: the claimed slot goes from free to in use and
      records f, the cursor advances by one from where it was (not from the
      claimed slot), and nothing else changes; with no free slot the pool is
      unchanged. */
  function AfterNoteOn(p: Pool, n: int, f: real): (r: Pool)
    requires Shaped(p, n) && n <= PoolSize
    ensures Shaped(r, n)
    ensures Claim(p.inUse, n, p.cursor).None? ==> r == p
    ensures Claim(p.inUse, n, p.cursor).Some? ==>
              var j := Claim(p.inUse, n, p.cursor).value;
              !p.inUse[j] && r.inUse[j] && r.notes[j] == f &&
              r.cursor == Advance(p.cursor, n) &&
              forall i :: 0 <= i < PoolSize && i != j ==> r.inUse[i] == p.inUse[i] && r.notes[i] == p.notes[i]
  {
    match Claim(p.inUse, n, p.cursor)
    case None => p
    case Some(j) => Pool(p.inUse[j := true], p.notes[j := f], Advance(p.cursor, n))
  }

  /** The pool after `noteOff(_)`: every slot is free, notes and cursor are kept. */
  function AfterNoteOff(p: Pool, n: int): (r: Pool)
    requires Shaped(p, n)
    ensures Shaped(r, n)
    ensures forall i :: 0 <= i < PoolSize ==> !r.inUse[i]
    ensures r.notes == p.notes && r.cursor == p.cursor
  {
    Pool(seq(PoolSize, i requires 0 <= i < PoolSize => if i < n then false else p.inUse[i]), p.notes, p.cursor)
  }

  /** The calls noteOn makes on the claimed voice: setFrequency, then noteOn. */
  function NoteOnCalls(voices: seq<Option<VoiceId>>, slot: Option<nat>, f: real): (calls: seq<VoiceCall>)
    requires slot.Some? ==> slot.value < |voices| && voices[slot.value].Some?
    ensures slot.None? <==> calls == []
    ensures slot.Some? ==>
              |calls| == 2 && calls[0].call == SetFrequency(f) && calls[1].call == Call.NoteOn &&
              forall c :: c in calls ==> c.slot == slot.value && c.voice == voices[slot.value].value
  {
    match slot
    case None => []
    case Some(j) => [VoiceCall(j, voices[j].value, SetFrequency(f)), VoiceCall(j, voices[j].value, Call.NoteOn)]
  }

  /** The calls noteOff makes: `noteOff` on the voices of slots 0 .. m-1, in order. */
  function NoteOffCalls(voices: seq<Option<VoiceId>>, m: nat): (calls: seq<VoiceCall>)
    requires m <= |voices| && forall k :: 0 <= k < m ==> voices[k].Some?
    ensures |calls| == m
    ensures forall k :: 0 <= k < m ==> calls[k] == VoiceCall(k, voices[k].value, NoteOff)
  {
    if m == 0 then [] else NoteOffCalls(voices, m - 1) + [VoiceCall(m - 1, voices[m - 1].value, NoteOff)]
  }

  /** Successive noteOn calls with the frequencies fs and no noteOff in between. */
  function NoteOnRun(p: Pool, n: int, fs: seq<real>): (t: Trace)
    requires Shaped(p, n) && n <= PoolSize
    ensures Shaped(t.final, n) && |t.claims| == |fs|
    decreases |fs|
  {
    if fs == [] then Trace(p, [])
    else
      var rest := NoteOnRun(AfterNoteOn(p, n, fs[0]), n, fs[1..]);
      Trace(rest.final, [Claim(p.inUse, n, p.cursor)] + rest.claims)
  }

  /** Successive noteOn/noteOff pairs, each noteOff right after its noteOn. */
  function PairRun(p: Pool, n: int, fs: seq<real>): (t: Trace)
    requires Shaped(p, n) && n <= PoolSize
    ensures Shaped(t.final, n) && |t.claims| == |fs|
    decreases |fs|
  {
    if fs == [] then Trace(p, [])
    else
      var rest := PairRun(AfterNoteOff(AfterNoteOn(p, n, fs[0]), n), n, fs[1..]);
      Trace(rest.final, [Claim(p.inUse, n, p.cursor)] + rest.claims)
  }

  // ---------------------------------------------------------------------
  // Arithmetic helpers for `%` on non-negative operands (C++ and Dafny agree there)

  lemma ModUnique(y: int, n: int, q: int, m: int)
    requires 1 <= n && 0 <= m < n && y == q * n + m
    ensures y % n == m
  {
    var d := q - y / n;
    assert d * n == y % n - m;
    if d >= 1 { assert false; }
    else if d <= -1 { assert false; }
  }

  lemma ModSmall(x: int, n: int)
    requires 1 <= n && 0 <= x < 2 * n
    ensures x % n == if x < n then x else x - n
  {
    if x < n { ModUnique(x, n, 0, x); } else { ModUnique(x, n, 1, x - n); }
  }

  lemma ModSucc(x: int, n: int)
    requires 1 <= n
    ensures (x % n + 1) % n == (x + 1) % n
  {
    var q, r := x / n, x % n;
    if r + 1 < n {
      ModUnique(x + 1, n, q, r + 1);
      ModUnique(r + 1, n, 0, r + 1);
    } else {
      ModUnique(x + 1, n, q + 1, 0);
      ModUnique(r + 1, n, 1, 0);
    }
  }

  lemma ModPeriod(x: int, n: int)
    requires 1 <= n
    ensures (x + n) % n == x % n
  {
    ModUnique(x + n, n, x / n + 1, x % n);
  }

  lemma ModDistinct(x: int, y: int, n: int)
    requires 1 <= n && x < y < x + n
    ensures y % n != x % n
  {
    var q, r := x / n, x % n;
    if r + (y - x) < n {
      ModUnique(y, n, q, r + (y - x));
    } else {
      ModUnique(y, n, q + 1, r + (y - x) - n);
    }
  }

  /** Probes fewer than n steps apart hit different slots. */
  lemma CyclicDistinct(c: int, k1: int, k2: int, n: int)
    requires 1 <= n && k1 < k2 < k1 + n
    ensures CyclicSlot(c, k1, n) != CyclicSlot(c, k2, n)
  {
    ModDistinct(c + k1, c + k2, n);
  }

  /** Probes n steps apart hit the same slot. */
  lemma CyclicPeriod(c: int, k: int, n: int)
    requires 1 <= n
    ensures CyclicSlot(c, k, n) == CyclicSlot(c, k - n, n)
  {
    ModPeriod(c + k - n, n);
  }

  /** From a cursor inside [0, n), every slot below n is reached within n probes. */
  lemma CyclicReaches(c: int, s: int, n: int) returns (k: nat)
    requires 0 <= c < n && 0 <= s < n
    ensures k < n && CyclicSlot(c, k, n) == s
  {
    k := if c <= s then s - c else s - c + n;
    ModSmall(c + k, n);
  }

  // ---------------------------------------------------------------------
  // Properties of the allocation policy

  lemma {:induction false} CountBelow(s: seq<bool>, m: nat)
    requires forall i :: 0 <= i < |s| && m <= i ==> !s[i]
    ensures CountInUse(s) <= m
  {
    if s != [] {
      if m == 0 {
        CountBelow(s[1..], 0);
      } else {
        CountBelow(s[1..], m - 1);
      }
    }
  }

  lemma {:induction false} CountSetTrue(s: seq<bool>, j: nat)
    requires j < |s| && !s[j]
    ensures CountInUse(s[j := true]) == CountInUse(s) + 1
  {
    if j == 0 {
      assert s[j := true][1..] == s[1..];
    } else {
      CountSetTrue(s[1..], j - 1);
      assert s[j := true][1..] == s[1..][j - 1 := true];
    }
  }

  /** At most nVoices slots are ever in use at once. */
  lemma PoolCapacity(p: Pool, n: int)
    requires Shaped(p, n)
    ensures CountInUse(p.inUse) <= ActiveSlots(n)
  {
    CountBelow(p.inUse, ActiveSlots(n));
  }

  /** A noteOn either claims one more slot or, when all n slots are busy, none;
      the number of busy slots never exceeds nVoices. */
  lemma NoteOnCount(p: Pool, n: int, f: real)
    requires Shaped(p, n) && n <= PoolSize
    ensures var r := AfterNoteOn(p, n, f);
            CountInUse(r.inUse) == CountInUse(p.inUse) + (if Claim(p.inUse, n, p.cursor).Some? then 1 else 0) &&
            CountInUse(r.inUse) <= ActiveSlots(n)
  {
    var r := AfterNoteOn(p, n, f);
    if Claim(p.inUse, n, p.cursor).Some? {
      CountSetTrue(p.inUse, Claim(p.inUse, n, p.cursor).value);
    }
    PoolCapacity(r, n);
  }

  /** noteOff is idempotent: a second one changes nothing. */
  lemma NoteOffIdempotent(p: Pool, n: int)
    requires Shaped(p, n)
    ensures AfterNoteOff(AfterNoteOff(p, n), n) == AfterNoteOff(p, n)
  {
  }

  /** noteOn's `i % nVoices` is the probed slot. */
  lemma ProbeIsMod(c: int, k: int, n: int)
    requires 0 <= c < n && 0 <= k < n
    ensures Probe(c, k, n) == (c + k) % n == CyclicSlot(c, k, n)
  {
    ModSmall(c + k, n);
  }

  /** noteOn's `nextVoice++; nextVoice %= nVoices` is `Advance`. */
  lemma AdvanceIsMod(c: int, n: int)
    requires 0 <= c < n
    ensures Advance(c, n) == (c + 1) % n
  {
    ModSmall(c + 1, n);
  }

  /** Slots claimed by the first i noteOns from an all-free pool whose cursor was c. */
  predicate InWindow(s: int, c: int, i: int, n: int) {
    0 <= s < n && if c + i <= n then c <= s < c + i else c <= s || s < c + i - n
  }

  /** One noteOn on a pool whose busy slots are exactly the window of i < n
      claims: it claims the cursor slot and widens the window by one. */
  lemma WindowStep(p: Pool, n: int, c: int, i: int, f: real)
    requires 1 <= n <= PoolSize && 0 <= c < n && 0 <= i < n
    requires Shaped(p, n) && p.cursor == Probe(c, i, n)
    requires forall s :: 0 <= s < PoolSize ==> p.inUse[s] == InWindow(s, c, i, n)
    ensures Claim(p.inUse, n, p.cursor) == Some(p.cursor)
    ensures var q := AfterNoteOn(p, n, f);
            (i + 1 < n ==> q.cursor == Probe(c, i + 1, n)) &&
            forall s :: 0 <= s < PoolSize ==> q.inUse[s] == InWindow(s, c, i + 1, n)
  {
    assert Probe(p.cursor, 0, n) == p.cursor;
    assert !p.inUse[p.cursor];
    assert ProbeFrom(p.inUse, n, p.cursor, 0) == Some(0);
  }

  /** A full window covers every slot below n, so the next noteOn is dropped. */
  lemma WindowFull(p: Pool, n: int, c: int, f: real)
    requires 1 <= n <= PoolSize && 0 <= c < n && Shaped(p, n)
    requires forall s :: 0 <= s < PoolSize ==> p.inUse[s] == InWindow(s, c, n, n)
    ensures Claim(p.inUse, n, p.cursor) == None && AfterNoteOn(p, n, f) == p
  {
    assert forall s :: 0 <= s < n ==> InWindow(s, c, n, n);
  }

  /** The first claim of a run is the claim of its first noteOn. */
  lemma NoteOnRunHead(p: Pool, n: int, fs: seq<real>)
    requires Shaped(p, n) && n <= PoolSize && fs != []
    ensures NoteOnRun(p, n, fs).claims[0] == Claim(p.inUse, n, p.cursor)
  {
  }

  /** Later claims of a run are those of the run that starts after the first noteOn. */
  lemma NoteOnRunTail(p: Pool, n: int, fs: seq<real>, k: int)
    requires Shaped(p, n) && n <= PoolSize && 1 <= k < |fs|
    ensures NoteOnRun(p, n, fs).claims[k] == NoteOnRun(AfterNoteOn(p, n, fs[0]), n, fs[1..]).claims[k - 1]
  {
  }

  /** Once the window is full, every further noteOn is dropped. */
  lemma {:induction false} FullWindowClaim(p: Pool, n: int, c: int, fs: seq<real>, k: nat)
    requires 1 <= n <= PoolSize && 0 <= c < n && k < |fs| && Shaped(p, n)
    requires forall s :: 0 <= s < PoolSize ==> p.inUse[s] == InWindow(s, c, n, n)
    ensures NoteOnRun(p, n, fs).claims[k] == None
    decreases k
  {
    WindowFull(p, n, c, fs[0]);
    if k == 0 {
      NoteOnRunHead(p, n, fs);
    } else {
      NoteOnRunTail(p, n, fs, k);
      FullWindowClaim(p, n, c, fs[1..], k - 1);
    }
  }

  /** Successive noteOns started on the window of i claims: the one that is the
      m-th counted from the all-free pool claims slot c + m (mod n), or nothing
      once m reaches n. */
  lemma {:induction false} WindowClaim(p: Pool, n: int, c: int, i: int, fs: seq<real>, m: int)
    requires 1 <= n <= PoolSize && 0 <= c < n && 0 <= i < n && i <= m < i + |fs|
    requires Shaped(p, n) && p.cursor == Probe(c, i, n)
    requires forall s :: 0 <= s < PoolSize ==> p.inUse[s] == InWindow(s, c, i, n)
    ensures NoteOnRun(p, n, fs).claims[m - i] == if m < n then Some(Probe(c, m, n)) else None
    decreases m - i
  {
    WindowStep(p, n, c, i, fs[0]);
    if i == m {
      NoteOnRunHead(p, n, fs);
    } else {
      var q := AfterNoteOn(p, n, fs[0]);
      var rest := NoteOnRun(q, n, fs[1..]).claims;
      NoteOnRunTail(p, n, fs, m - i);
      if i + 1 < n {
        WindowClaim(q, n, c, i + 1, fs[1..], m);
        assert rest[m - (i + 1)] == if m < n then Some(Probe(c, m, n)) else None;
      } else {
        FullWindowClaim(q, n, c, fs[1..], m - i - 1);
        assert rest[m - (i + 1)] == None;
      }
    }
  }

  /** Exclusivity: from an all-free pool, successive noteOns without noteOff
      claim the slots cursor, cursor+1, ... (mod nVoices); once the nVoices
      slots are taken, every further request is dropped. */
  lemma Exclusivity(p: Pool, n: int, fs: seq<real>, k: nat)
    requires 1 <= n <= PoolSize && Shaped(p, n) && k < |fs|
    requires forall s :: 0 <= s < PoolSize ==> !p.inUse[s]
    ensures k < n ==> NoteOnRun(p, n, fs).claims[k] == Some(CyclicSlot(p.cursor, k, n))
    ensures n <= k ==> NoteOnRun(p, n, fs).claims[k] == None
  {
    WindowClaim(p, n, p.cursor, 0, fs, k);
    if k < n {
      var claims := NoteOnRun(p, n, fs).claims;
      var w := Probe(p.cursor, k, n);
      assert claims[k] == Some(w);
      ProbeIsMod(p.cursor, k, n);
    }
  }

  /** No two notes sounding at once share a slot: among successive noteOns
      without noteOff, two claims that both succeed name different slots. */
  lemma ExclusiveSlots(p: Pool, n: int, fs: seq<real>, k1: nat, k2: nat)
    requires 1 <= n <= PoolSize && Shaped(p, n) && k1 < k2 < |fs|
    requires forall s :: 0 <= s < PoolSize ==> !p.inUse[s]
    requires NoteOnRun(p, n, fs).claims[k2].Some?
    ensures NoteOnRun(p, n, fs).claims[k1] != NoteOnRun(p, n, fs).claims[k2]
  {
    Exclusivity(p, n, fs, k1);
    Exclusivity(p, n, fs, k2);
    CyclicDistinct(p.cursor, k1, k2, n);
  }

  /** The first claim of a pair run is the claim of its first noteOn. */
  lemma PairRunHead(p: Pool, n: int, fs: seq<real>)
    requires Shaped(p, n) && n <= PoolSize && fs != []
    ensures PairRun(p, n, fs).claims[0] == Claim(p.inUse, n, p.cursor)
  {
  }

  /** Later claims of a pair run are those of the run after the first pair. */
  lemma PairRunTail(p: Pool, n: int, fs: seq<real>, k: int)
    requires Shaped(p, n) && n <= PoolSize && 1 <= k < |fs|
    ensures PairRun(p, n, fs).claims[k] == PairRun(AfterNoteOff(AfterNoteOn(p, n, fs[0]), n), n, fs[1..]).claims[k - 1]
  {
  }


  /** One noteOn/noteOff pair on an all-free pool claims the cursor slot and
      leaves the pool all free with the cursor one step further. */
  lemma PairStep(p: Pool, n: int, c: int, i: int, f: real)
    requires 1 <= n <= PoolSize && Shaped(p, n) && p.cursor == CyclicSlot(c, i, n)
    requires forall s :: 0 <= s < PoolSize ==> !p.inUse[s]
    ensures Claim(p.inUse, n, p.cursor) == Some(p.cursor)
    ensures AfterNoteOff(AfterNoteOn(p, n, f), n).cursor == CyclicSlot(c, i + 1, n)
  {
    assert Probe(p.cursor, 0, n) == p.cursor;
    assert ProbeFrom(p.inUse, n, p.cursor, 0) == Some(0);
    ModSucc(c + i, n);
    AdvanceIsMod(p.cursor, n);
  }

  /** Successive noteOn/noteOff pairs started on an all-free pool whose cursor
      is i steps after c: the one that is the m-th counted from c claims slot
      c + m (mod n). */
  lemma {:induction false} PairClaim(p: Pool, n: int, c: int, i: int, fs: seq<real>, m: int)
    requires 1 <= n <= PoolSize && Shaped(p, n) && p.cursor == CyclicSlot(c, i, n) && i <= m < i + |fs|
    requires forall s :: 0 <= s < PoolSize ==> !p.inUse[s]
    ensures PairRun(p, n, fs).claims[m - i] == Some(CyclicSlot(c, m, n))
    decreases m - i
  {
    PairStep(p, n, c, i, fs[0]);
    if i == m {
      PairRunHead(p, n, fs);
    } else {
      PairRunTail(p, n, fs, m - i);
      PairClaim(AfterNoteOff(AfterNoteOn(p, n, fs[0]), n), n, c, i + 1, fs[1..], m);
    }
  }

  /** Round robin: from an all-free pool, alternating noteOn/noteOff pairs
      claim the slots cursor, cursor+1, ... (mod nVoices). */
  lemma RoundRobin(p: Pool, n: int, fs: seq<real>, k: nat)
    requires 1 <= n <= PoolSize && Shaped(p, n) && k < |fs|
    requires forall s :: 0 <= s < PoolSize ==> !p.inUse[s]
    ensures PairRun(p, n, fs).claims[k] == Some(CyclicSlot(p.cursor, k, n))
  {
    ModSmall(p.cursor, n);
    PairClaim(p, n, p.cursor, 0, fs, k);
  }

  /** Within any nVoices consecutive noteOn/noteOff pairs no slot is used twice. */
  lemma RoundRobinNoRepeat(p: Pool, n: int, fs: seq<real>, k1: nat, k2: nat)
    requires 1 <= n <= PoolSize && Shaped(p, n) && k1 < k2 < |fs| && k2 < k1 + n
    requires forall s :: 0 <= s < PoolSize ==> !p.inUse[s]
    ensures PairRun(p, n, fs).claims[k1] != PairRun(p, n, fs).claims[k2]
  {
    RoundRobin(p, n, fs, k1);
    RoundRobin(p, n, fs, k2);
    CyclicDistinct(p.cursor, k1, k2, n);
  }

  /** The slots used by noteOn/noteOff pairs repeat with period nVoices. */
  lemma RoundRobinPeriodic(p: Pool, n: int, fs: seq<real>, k: nat)
    requires 1 <= n <= PoolSize && Shaped(p, n) && n <= k < |fs|
    requires forall s :: 0 <= s < PoolSize ==> !p.inUse[s]
    ensures PairRun(p, n, fs).claims[k] == PairRun(p, n, fs).claims[k - n]
  {
    RoundRobin(p, n, fs, k);
    RoundRobin(p, n, fs, k - n);
    CyclicPeriod(p.cursor, k, n);
  }

  /** The first nVoices noteOn/noteOff pairs from an all-free pool use every slot. */
  lemma RoundRobinCoversPool(p: Pool, n: int, fs: seq<real>, s: int)
    requires 1 <= n <= PoolSize && Shaped(p, n) && n <= |fs| && 0 <= s < n
    requires forall s :: 0 <= s < PoolSize ==> !p.inUse[s]
    ensures Some(s) in PairRun(p, n, fs).claims[..n]
  {
    var k := CyclicReaches(p.cursor, s, n);
    RoundRobin(p, n, fs, k);
    assert PairRun(p, n, fs).claims[..n][k] == Some(s);
  }

  /** The cursor moves on from where it was, not from the claimed slot: with
      slot 0 busy and the cursor at 0, noteOn claims slot 1 and leaves the
      cursor on that same slot 1. */
  lemma CursorTrailsClaim()
    ensures var p := Pool([true, false, false, false, false, false, false, false], seq(PoolSize, _ => 0.0), 0);
            Claim(p.inUse, 3, 0) == Some(1) && AfterNoteOn(p, 3, 440.0).cursor == 1
  {
    var inUse := [true, false, false, false, false, false, false, false];
    assert Probe(0, 0, 3) == 0 && Probe(0, 1, 3) == 1;
    assert ProbeFrom(inUse, 3, 0, 0) == Some(1);
  }

  // ---------------------------------------------------------------------
  // The allocator object

  class Allocator {
    var voices: array<Option<VoiceId>>
    var nVoices: int
    var voiceInUse: array<bool>
    var notes: array<real>
    var nextVoice: int
    /** Every call made on a voice, oldest first. */
    ghost var log: seq<VoiceCall>

    ghost function Snapshot(): Pool
      reads this, voiceInUse, notes
    {
      Pool(voiceInUse[..], notes[..], nextVoice)
    }

    ghost predicate Valid()
      reads this, voices, voiceInUse, notes
    {
      voices.Length == PoolSize && voiceInUse.Length == PoolSize && notes.Length == PoolSize &&
      Shaped(Snapshot(), nVoices) &&
      forall i :: 0 <= i < ActiveSlots(nVoices) ==> voices[i].Some?
    }

    /** Copies the first min(nVoices, 8) voice pointers (the rest stay unset),
        marks every slot free, zeroes the notes and puts the cursor at 0. */
    constructor (inputVoices: seq<VoiceId>, inputNVoices: int)
      requires ActiveSlots(inputNVoices) <= |inputVoices|
      ensures Valid() && fresh(voices) && fresh(voiceInUse) && fresh(notes)
      ensures nVoices == inputNVoices && log == []
      ensures forall i :: 0 <= i < PoolSize ==>
                voices[i] == (if i < ActiveSlots(inputNVoices) then Some(inputVoices[i]) else None)
      ensures forall i :: 0 <= i < PoolSize ==> !voiceInUse[i] && notes[i] == 0.0
      ensures nextVoice == 0
    {
      nVoices := inputNVoices;
      var vs := new Option<VoiceId>[PoolSize](_ => None);
      var i := 0;
      while i < inputNVoices && i < PoolSize
        invariant 0 <= i <= ActiveSlots(inputNVoices)
        invariant forall k :: 0 <= k < PoolSize ==> vs[k] == if k < i then Some(inputVoices[k]) else None
      {
        vs[i] := Some(inputVoices[i]);
        i := i + 1;
      }
      assert i == ActiveSlots(inputNVoices);
      var inUse := new bool[PoolSize];
      for k := 0 to PoolSize
        modifies inUse
        invariant forall m :: 0 <= m < k ==> !inUse[m]
      {
        inUse[k] := false;
      }
      voices := vs;
      voiceInUse := inUse;
      notes := new real[PoolSize](_ => 0.0);
      nextVoice := 0;
      log := [];
    }

    /** The search loop of noteOn: visits the slots in cyclic order from the
        cursor, at most nVoices of them, and stops at the first free one. */
    method FreeSlot() returns (slot: Option<nat>)
      requires voiceInUse.Length == PoolSize && nVoices <= PoolSize
      requires 1 <= nVoices ==> 0 <= nextVoice < nVoices
      ensures slot == Claim(voiceInUse[..], nVoices, nextVoice)
    {
      ghost var inUse := voiceInUse[..];
      var i := nextVoice;
      while i < nVoices + nextVoice && i < PoolSize + nextVoice
        invariant nextVoice <= i && (1 <= nVoices ==> i <= nVoices + nextVoice)
        invariant 1 <= nVoices ==> forall e :: 0 <= e < i - nextVoice ==> inUse[Probe(nextVoice, e, nVoices)]
      {
        var j := i % nVoices;
        ProbeIsMod(nextVoice, i - nextVoice, nVoices);
        if !voiceInUse[j] {
          ProbeFound(inUse, nVoices, nextVoice, i - nextVoice);
          return Some(j);
        }
        i := i + 1;
      }
      if 1 <= nVoices {
        ProbeExhausted(inUse, nVoices, nextVoice);
      }
      return None;
    }

    /** Claims the first free slot in cyclic order from the cursor for a note of
        the given frequency, as `AfterNoteOn` says, and calls setFrequency then
        noteOn on that slot's voice; drops the request when no slot is free. */
    method NoteOn(frequency: real)
      requires Valid() && nVoices <= PoolSize
      modifies this`nextVoice, this`log, voiceInUse, notes
      ensures Valid()
      ensures Snapshot() == AfterNoteOn(old(Snapshot()), nVoices, frequency)
      ensures log == old(log) + NoteOnCalls(voices[..], Claim(old(voiceInUse[..]), nVoices, old(nextVoice)), frequency)
    {
      var slot := FreeSlot();
      if slot.Some? {
        var j := slot.value;
        ghost var before := Snapshot();
        ghost var after := Pool(before.inUse[j := true], before.notes[j := frequency], Advance(before.cursor, nVoices));
        assert AfterNoteOn(before, nVoices, frequency) == after;
        log := log + [VoiceCall(j, voices[j].value, SetFrequency(frequency)), VoiceCall(j, voices[j].value, Call.NoteOn)];
        voiceInUse[j] := true;
        notes[j] := frequency;
        nextVoice := nextVoice + 1;
        nextVoice := nextVoice % nVoices;
        AdvanceIsMod(before.cursor, nVoices);
        assert voiceInUse[..] == after.inUse && notes[..] == after.notes && nextVoice == after.cursor;
      }
    }

    /** Releases every voice: noteOff on the voices of slots 0 .. nVoices-1 and
        every flag cleared. The frequency argument is not used. */
    method NoteOff(frequency: real)
      requires Valid()
      modifies this`log, voiceInUse
      ensures Valid()
      ensures Snapshot() == AfterNoteOff(old(Snapshot()), nVoices)
      ensures log == old(log) + NoteOffCalls(voices[..], ActiveSlots(nVoices))
    {
      var i := 0;
      while i < nVoices && i < PoolSize
        invariant 0 <= i <= ActiveSlots(nVoices)
        invariant forall k :: 0 <= k < PoolSize ==> voiceInUse[k] == (if k < i then false else old(voiceInUse[k]))
        invariant log == old(log) + NoteOffCalls(voices[..], i)
      {
        log := log + [VoiceCall(i, voices[i].value, Call.NoteOff)];
        voiceInUse[i] := false;
        i := i + 1;
      }
      assert voiceInUse[..] == AfterNoteOff(old(Snapshot()), nVoices).inUse;
    }
  }
}
