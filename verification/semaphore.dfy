/** The channel semaphore with its resize guard, kept as written: acquiring never counts, releasing counts down. */
module Semaphores {
  import opened GoInt
  import opened Results

  datatype SemaphoreError = TemporaryUnavailable | TimeoutExceeded

  /** A buffered channel of tokens. */
  datatype Chan = Chan(capacity: nat, tokens: nat)

  /** All channels the semaphore has ever had; the last one is current. A sender keeps the channel it has chosen. */
  datatype Sema = Sema(chans: seq<Chan>, activeCount: uint64, blockAcquire: bool) {
    function Current(): Chan
      requires chans != []
    {
      chans[|chans| - 1]
    }
  }

  /** The counter after `releases` releases: it only ever counts down, from zero and around. */
  function CountedDown(releases: nat): uint64 {
    WrapU(0 - releases)
  }

  lemma CountdownStep(releases: nat, more: nat)
    ensures WrapU(CountedDown(releases) - more) == CountedDown(releases + more)
  {
    var q := (0 - releases) / TWO64;
    assert CountedDown(releases) == 0 - releases - q * TWO64;
    assert (0 - releases - more) % TWO64 == (0 - releases - more - q * TWO64) % TWO64;
  }

  lemma CountdownZero(releases: nat)
    ensures CountedDown(releases) == 0 <==> releases % TWO64 == 0
  {
  }

  function NewSema(maxRequests: nat): Sema {
    Sema([Chan(maxRequests, 0)], 0, false)
  }

  predicate CanSend(s: Sema, c: nat) {
    c < |s.chans| && s.chans[c].tokens < s.chans[c].capacity
  }

  function Sent(s: Sema, c: nat): Sema
    requires CanSend(s, c)
  {
    s.(chans := s.chans[c := s.chans[c].(tokens := s.chans[c].tokens + 1)])
  }

  predicate CanReceive(s: Sema) {
    s.chans != [] && s.Current().tokens > 0
  }

  function Received(s: Sema): Sema
    requires CanReceive(s)
  {
    s.(chans := s.chans[|s.chans| - 1 := s.Current().(tokens := s.Current().tokens - 1)],
       activeCount := WrapU(s.activeCount - 1))
  }

  /** The wait loop of a resize is left only at a zero count. */
  predicate CanResize(s: Sema) {
    s.activeCount == 0
  }

  function Resized(s: Sema, maxRequests: nat): Sema {
    s.(chans := s.chans + [Chan(maxRequests, 0)], blockAcquire := false)
  }

  /** What others get through while a resize waits once: senders that were past the block check before it put tokens in,
      and holders release. */
  datatype Traffic = Traffic(sends: nat, releases: nat)

  function Sends(ts: seq<Traffic>): nat {
    if ts == [] then 0 else Sends(ts[..|ts| - 1]) + ts[|ts| - 1].sends
  }

  function Releases(ts: seq<Traffic>): nat {
    if ts == [] then 0 else Releases(ts[..|ts| - 1]) + ts[|ts| - 1].releases
  }

  /** The channel can carry the traffic: it never holds fewer tokens than none or more than it can. */
  predicate Carries(c: Chan, t: Traffic) {
    0 <= c.tokens + t.sends - t.releases <= c.capacity
  }

  function Carried(c: Chan, t: Traffic): Chan
    requires Carries(c, t)
  {
    c.(tokens := c.tokens + t.sends - t.releases)
  }

  predicate CarriesAll(c: Chan, ts: seq<Traffic>)
    decreases |ts|
  {
    ts == [] || (Carries(c, ts[0]) && CarriesAll(Carried(c, ts[0]), ts[1..]))
  }

  class Channel {
    const capacity: nat
    var tokens: nat

    constructor (capacity: nat)
      ensures this.capacity == capacity && tokens == 0
    {
      this.capacity, this.tokens := capacity, 0;
    }
  }

  class Semaphore {
    var semaCh: Channel
    var activeCount: uint64
    var blockAcquire: bool
    /** How many releases have gone through. */
    ghost var releases: nat

    /** The counter is minus the number of releases, modulo 2^64, whatever was acquired. */
    ghost predicate Valid()
      reads this, semaCh
    {
      activeCount == CountedDown(releases) && semaCh.tokens <= semaCh.capacity
    }

    /** The semaphore as a value, its current channel alone. */
    function View(): Sema
      reads this, semaCh
    {
      Sema([Chan(semaCh.capacity, semaCh.tokens)], activeCount, blockAcquire)
    }

    constructor (maxRequests: nat)
      ensures View() == NewSema(maxRequests)
      ensures Valid() && fresh(semaCh) && releases == 0
    {
      semaCh := new Channel(maxRequests);
      activeCount, blockAcquire, releases := 0, false, 0;
    }

    /** Takes a token unless a resize blocks acquiring or the timer wins; a full channel leaves only the timer. */
    method AcquireWithTimeout(timerWins: bool) returns (err: Option<SemaphoreError>)
      requires Valid()
      modifies semaCh
      ensures Valid()
      ensures err == if blockAcquire then Some(TemporaryUnavailable)
                     else if timerWins || old(semaCh.tokens) == semaCh.capacity then Some(TimeoutExceeded)
                     else None
      ensures err.None? ==> CanSend(old(View()), 0) && View() == Sent(old(View()), 0)
      ensures err.Some? ==> View() == old(View())
    {
      if blockAcquire {
        return Some(TemporaryUnavailable);
      }
      if timerWins || semaCh.tokens == semaCh.capacity {
        return Some(TimeoutExceeded);
      }
      semaCh.tokens := semaCh.tokens + 1;
      return None;
    }

    /** Gives a token back; without one it would wait for ever, and then nothing changes. */
    method Release() returns (returned: bool)
      requires Valid()
      modifies this`activeCount, this`releases, semaCh
      ensures Valid() && returned == CanReceive(old(View()))
      ensures releases == old(releases) + if returned then 1 else 0
      ensures returned ==> View() == Received(old(View()))
      ensures !returned ==> View() == old(View())
    {
      if semaCh.tokens == 0 {
        return false;
      }
      semaCh.tokens := semaCh.tokens - 1;
      CountdownStep(releases, 1);
      releases := releases + 1;
      activeCount := WrapU(activeCount - 1);
      return true;
    }

    /** Waits on the condition variable, while others get their traffic through. */
    method CondWait(others: Traffic)
      requires Valid() && Carries(Chan(semaCh.capacity, semaCh.tokens), others)
      modifies this`activeCount, this`releases, semaCh`tokens
      ensures Valid() && releases == old(releases) + others.releases
      ensures Chan(semaCh.capacity, semaCh.tokens) == Carried(old(Chan(semaCh.capacity, semaCh.tokens)), others)
    {
      semaCh.tokens := semaCh.tokens + others.sends - others.releases;
      CountdownStep(releases, others.releases);
      releases := releases + others.releases;
      activeCount := WrapU(activeCount - others.releases);
    }

    /** Replaces the channel. `others[i]` is the traffic that others get through while the loop waits for the i-th time,
        whatever the channel can carry; the answer is false when the loop is still waiting after all of it. It is left
        exactly when the releases made so far are a multiple of 2^64. */
    method ChangeMaxRequests(maxRequests: nat, others: seq<Traffic>) returns (returned: bool)
      requires Valid() && CarriesAll(Chan(semaCh.capacity, semaCh.tokens), others)
      modifies this, semaCh
      ensures Valid()
      ensures returned <==> exists n :: 0 <= n <= |others| && (old(releases) + Releases(others[..n])) % TWO64 == 0
      ensures returned ==> fresh(semaCh) && View() == NewSema(maxRequests)
      ensures !returned ==> && semaCh == old(semaCh) && blockAcquire && releases == old(releases) + Releases(others)
                            && semaCh.tokens == old(semaCh.tokens) + Sends(others) - Releases(others)
    {
      hide WrapU, CountedDown, Releases, Sends, Carries, CarriesAll;
      NoTraffic();
      blockAcquire := true;
      var waits := 0;
      ghost var tokens := semaCh.tokens;
      assert others[0..] == others;
      while activeCount > 0 && waits < |others|
        invariant waits <= |others| && semaCh == old(semaCh) && blockAcquire
        invariant releases == old(releases) + Releases(others[..waits])
        invariant Valid() && semaCh.tokens == tokens + Sends(others[..waits]) - Releases(others[..waits])
        invariant CarriesAll(Chan(semaCh.capacity, semaCh.tokens), others[waits..])
        invariant forall n :: 0 <= n < waits ==> (old(releases) + Releases(others[..n])) % TWO64 != 0
        decreases |others| - waits
      {
        CountdownZero(releases);
        MoreTraffic(others, waits);
        NextTraffic(Chan(semaCh.capacity, semaCh.tokens), others, waits);
        CondWait(others[waits]);
        waits := waits + 1;
      }
      CountdownZero(releases);
      assert others[..|others|] == others;
      if activeCount > 0 {
        return false;
      }
      assert (old(releases) + Releases(others[..waits])) % TWO64 == 0;
      semaCh := new Channel(maxRequests);
      blockAcquire := false;
      return true;
    }
  }

  lemma NoTraffic()
    ensures Releases([]) == 0 && Sends([]) == 0
  {
  }

  lemma MoreTraffic(ts: seq<Traffic>, n: nat)
    requires n < |ts|
    ensures Releases(ts[..n + 1]) == Releases(ts[..n]) + ts[n].releases
      && Sends(ts[..n + 1]) == Sends(ts[..n]) + ts[n].sends
  {
    assert ts[..n + 1][..n] == ts[..n];
  }

  lemma NextTraffic(c: Chan, ts: seq<Traffic>, n: nat)
    requires n < |ts| && CarriesAll(c, ts[n..])
    ensures Carries(c, ts[n]) && CarriesAll(Carried(c, ts[n]), ts[n + 1..])
  {
    assert ts[n..][1..] == ts[n + 1..];
  }
}
