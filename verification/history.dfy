/** The round history: a list of entries, newest first, capped at six. */
module History {

  /** The classification badge of a history entry. */
  datatype Outcome = Win | Lose | Draw

  datatype Entry = Entry(text: string, result: Outcome)

  /** The number of entries the history keeps. */
  const Cap: nat := 6

  /** Add an entry on top; if the list then holds more than `Cap` entries,
      drop the last (oldest) one. */
  function Push(h: seq<Entry>, e: Entry): (r: seq<Entry>)
    ensures |h| < Cap ==> |r| == |h| + 1
    ensures |h| >= Cap ==> |r| == |h|
    ensures |r| >= 1 && r[0] == e
    ensures r[1..] == h[..|r| - 1]
    ensures |h| <= Cap ==> |r| <= Cap
  {
    var u := [e] + h;
    if |u| > Cap then u[..|u| - 1] else u
  }

  /** Reference definition: the first `Cap` entries of a newest-first list. */
  function Newest(xs: seq<Entry>): (r: seq<Entry>)
    ensures |r| == if |xs| < Cap then |xs| else Cap
    ensures r == xs[..|r|]
  {
    if |xs| <= Cap then xs else xs[..Cap]
  }

  function Reverse(s: seq<Entry>): (r: seq<Entry>)
    ensures |r| == |s|
    ensures forall i :: 0 <= i < |s| ==> r[i] == s[|s| - 1 - i]
  {
    if s == [] then [] else Reverse(s[1..]) + [s[0]]
  }

  /** Push each entry of `es` in turn, `es[0]` first. */
  function PushAll(h: seq<Entry>, es: seq<Entry>): seq<Entry>
    decreases |es|
  {
    if es == [] then h else PushAll(Push(h, es[0]), es[1..])
  }

  /** On a history within the cap, a push keeps the newest `Cap` entries of
      the list with the new entry on top. */
  lemma PushIsNewest(h: seq<Entry>, e: Entry)
    requires |h| <= Cap
    ensures Push(h, e) == Newest([e] + h)
  {
  }

  /** Truncating the tail first does not change the newest `Cap` entries. */
  lemma NewestAbsorbs(a: seq<Entry>, b: seq<Entry>)
    ensures Newest(a + Newest(b)) == Newest(a + b)
  {
  }

  /** Pushing any number of entries onto a history within the cap leaves
      exactly the `Cap` most recently pushed entries (newest first), followed
      by the old entries if room remains. */
  lemma {:induction false} PushAllKeepsNewest(h: seq<Entry>, es: seq<Entry>)
    requires |h| <= Cap
    ensures PushAll(h, es) == Newest(Reverse(es) + h)
    decreases |es|
  {
    if es == [] {
      assert Reverse(es) + h == h;
    } else {
      var h1 := Push(h, es[0]);
      PushIsNewest(h, es[0]);
      PushAllKeepsNewest(h1, es[1..]);
      NewestAbsorbs(Reverse(es[1..]), [es[0]] + h);
      assert Reverse(es[1..]) + ([es[0]] + h) == Reverse(es) + h;
    }
  }

  /** After seven rounds on an empty history the oldest one is gone and the
      most recent one is on top. */
  lemma SevenRoundsEvictOldest(es: seq<Entry>)
    requires |es| == 7
    ensures |PushAll([], es)| == Cap
    ensures PushAll([], es)[0] == es[6]
    ensures PushAll([], es)[Cap - 1] == es[1]
  {
    PushAllKeepsNewest([], es);
    assert Reverse(es) + [] == Reverse(es);
  }
}
