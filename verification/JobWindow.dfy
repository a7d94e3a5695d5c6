// The nine latest sends of a channel, against the job IDs a store still holds.
module JobWindow {
  import opened Sets

  const WINDOW := 9

  /** `window` lists the latest sends, newest first, padded with zeros; `jobs` are all the IDs ever sent. Sends never go
      back to an older ID, so nothing newer than the end of the window is missing from it. */
  predicate Tracks(window: seq<nat>, jobs: set<nat>) {
    && |window| == WINDOW
    && (forall i, k :: 0 <= i < k < WINDOW ==> window[k] <= window[i])
    && (forall i :: 0 <= i < WINDOW && window[i] != 0 ==> window[i] in jobs)
    && (forall j :: j in jobs && j > window[WINDOW - 1] ==> j in window)
  }

  function Pushed(window: seq<nat>, j: nat): seq<nat>
    requires |window| == WINDOW
  {
    [j] + window[..WINDOW - 1]
  }

  lemma PushTracks(window: seq<nat>, jobs: set<nat>, j: nat)
    requires Tracks(window, jobs) && j >= window[0]
    ensures Tracks(Pushed(window, j), jobs + {j})
  {
    var after := Pushed(window, j);
    forall k | k in jobs + {j} && k > after[WINDOW - 1]
      ensures k in after
    {
      if k == j {
        assert after[0] == j;
      } else {
        assert k in window;
        var i :| 0 <= i < WINDOW && window[i] == k;
        assert after[i + 1] == k;
      }
    }
  }

  /** Stored job IDs a channel should have been sent but was not: another channel opened on them. */
  function Missed(keys: set<nat>, jobs: set<nat>, first: nat): set<nat> {
    set k | k in keys && first != 0 && first < k && k !in jobs
  }

  function Elements(s: seq<nat>): set<nat> {
    set x | x in s
  }

  lemma {:induction false} ElementsSize(s: seq<nat>)
    ensures |Elements(s)| <= |s|
    decreases |s|
  {
    if s != [] {
      ElementsSize(s[1..]);
      assert Elements(s) == Elements(s[1..]) + {s[0]};
    } else {
      assert Elements(s) == {};
    }
  }

  /** The oldest stored ID can be among the eight latest sends of a channel only while the store is small: eight IDs for
      the window, and one for every ID the channel missed. */
  lemma OldestInWindow(window: seq<nat>, jobs: set<nat>, first: nat, keys: set<nat>, oldest: nat)
    requires Tracks(window, jobs)
    requires oldest in window[..WINDOW - 1] && oldest != 0
    requires forall k :: k in keys ==> oldest <= k
    requires first != 0 && forall j :: j in jobs ==> first <= j
    ensures |keys| <= WINDOW - 1 + |Missed(keys, jobs, first)|
  {
    var recent, missed := Elements(window[..WINDOW - 1]), Missed(keys, jobs, first);
    var at :| 0 <= at < WINDOW - 1 && window[at] == oldest;
    assert oldest in jobs && window[WINDOW - 1] <= oldest;
    forall k | k in keys
      ensures k in recent + missed
    {
      if k !in jobs {
        assert k != oldest;
      } else if k != oldest {
        assert k in window;
        var i :| 0 <= i < WINDOW && window[i] == k;
        assert i < WINDOW - 1;
        assert window[..WINDOW - 1][i] == k;
      }
    }
    SubsetSize(keys, recent + missed);
    ElementsSize(window[..WINDOW - 1]);
  }
}
