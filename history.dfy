/** The session record kept across rounds (and in browser storage): three tallies and the
    most recent results, newest first, at most ten of them. */
module History {

  datatype Option<T> = None | Some(value: T)

  /** One finished round: when it ended (an opaque display string) and its outcome label. */
  datatype Entry = Entry(date: string, winner: string)

  /** The stored `gameHistory` object. */
  datatype Session = Session(player: nat, computer: nat, tie: nat, history: seq<Entry>)

  /** The history keeps at most this many entries. */
  const Cap := 10

  /** The record `startNewGame` writes, and the one used when storage holds nothing. */
  function NewSession(): (s: Session)
    ensures s.player == 0 && s.computer == 0 && s.tie == 0 && |s.history| == 0
  {
    Session(0, 0, 0, [])
  }

  /** Rounds counted by the tallies. */
  function Total(s: Session): nat {
    s.player + s.computer + s.tie
  }

  // ---------------------------------------------------------------------------
  // String.prototype.includes
  // ---------------------------------------------------------------------------

  /** part occurs in s starting at index i. */
  predicate OccursAt(s: string, part: string, i: int) {
    0 <= i && i + |part| <= |s| && s[i..i + |part|] == part
  }

  /** `s.includes(part)`: part occurs somewhere in s as a contiguous substring. */
  function Includes(s: string, part: string): (r: bool)
    ensures r <==> exists i :: OccursAt(s, part, i)
    decreases |s|
  {
    if |s| < |part| then false
    else if s[..|part|] == part then
      assert OccursAt(s, part, 0);
      true
    else
      IncludesShift(s, part);
      Includes(s[1..], part)
  }

  /** When part is not a prefix of s, its occurrences in s are those in s[1..], moved by one. */
  lemma IncludesShift(s: string, part: string)
    requires |part| <= |s| && s[..|part|] != part
    ensures (exists i :: OccursAt(s, part, i)) <==> (exists i :: OccursAt(s[1..], part, i))
  {
    if i :| OccursAt(s, part, i) {
      assert i != 0;
      assert s[1..][i - 1..i - 1 + |part|] == s[i..i + |part|];
      assert OccursAt(s[1..], part, i - 1);
    }
    if i :| OccursAt(s[1..], part, i) {
      assert s[i + 1..i + 1 + |part|] == s[1..][i..i + |part|];
      assert OccursAt(s, part, i + 1);
    }
  }

  /** A string that contains part contains part's first character. */
  lemma IncludesFirstChar(s: string, part: string)
    requires |part| > 0 && Includes(s, part)
    ensures part[0] in s
  {
  }

  // ---------------------------------------------------------------------------
  // endGame: tally and history
  // ---------------------------------------------------------------------------

  /** Which tally `endGame` bumps for an outcome label: "Player" if the label mentions the
      player, else "Computer" if it mentions the computer, else the tie count. */
  function Tallied(s: Session, winner: string): (r: Session)
    ensures Total(r) == Total(s) + 1 && r.history == s.history
    ensures r.player == s.player + (if Includes(winner, "Player") then 1 else 0)
    ensures r.computer == s.computer + (if !Includes(winner, "Player") && Includes(winner, "Computer") then 1 else 0)
    ensures r.tie == s.tie + (if !Includes(winner, "Player") && !Includes(winner, "Computer") then 1 else 0)
  {
    if Includes(winner, "Player") then s.(player := s.player + 1)
    else if Includes(winner, "Computer") then s.(computer := s.computer + 1)
    else s.(tie := s.tie + 1)
  }

  /** `unshift` the entry, then `pop` the oldest if that made the list longer than Cap. */
  function Prepended(history: seq<Entry>, e: Entry): (r: seq<Entry>)
    ensures |r| > 0 && r[0] == e
    ensures |r| == if |history| < Cap then |history| + 1 else |history|
    ensures r[1..] == history[..|r| - 1]
  {
    var longer := [e] + history;
    if |longer| > Cap then longer[..|longer| - 1] else longer
  }

  /** The session after one finished round whose entry is e. */
  function Record(s: Session, e: Entry): (r: Session)
    ensures Total(r) == Total(s) + 1
    ensures r.player >= s.player && r.computer >= s.computer && r.tie >= s.tie
    ensures |s.history| <= Cap ==> |r.history| <= Cap
    ensures |r.history| > 0 && r.history[0] == e && r.history[1..] <= s.history
  {
    Tallied(s, e.winner).(history := Prepended(s.history, e))
  }

  // ---------------------------------------------------------------------------
  // Many rounds
  // ---------------------------------------------------------------------------

  /** The session after the rounds es, oldest first, have been recorded. */
  function Play(s: Session, es: seq<Entry>): Session
    decreases |es|
  {
    if es == [] then s else Record(Play(s, es[..|es| - 1]), es[|es| - 1])
  }

  function Reverse<T>(xs: seq<T>): (r: seq<T>)
    ensures |r| == |xs|
  {
    if xs == [] then [] else [xs[|xs| - 1]] + Reverse(xs[..|xs| - 1])
  }

  /** The first n elements of xs, or all of them when there are fewer. */
  function Take<T>(xs: seq<T>, n: nat): (r: seq<T>)
    ensures |r| <= n && r <= xs
    ensures |xs| <= n ==> r == xs
  {
    if |xs| <= n then xs else xs[..n]
  }

  /** Starting from a history of at most Cap entries, after any number of rounds the history
      holds the most recent rounds, newest first, followed by what was there before, cut to
      Cap entries; and every round adds exactly one to the tallies. */
  lemma {:induction false} PlayKeepsNewest(s: Session, es: seq<Entry>)
    requires |s.history| <= Cap
    ensures Play(s, es).history == Take(Reverse(es) + s.history, Cap)
    ensures Total(Play(s, es)) == Total(s) + |es|
  {
    if es != [] {
      var init, e := es[..|es| - 1], es[|es| - 1];
      PlayKeepsNewest(s, init);
      var h := Play(s, init).history;
      var all := Reverse(init) + s.history;
      assert Reverse(es) + s.history == [e] + all by {
        assert es[..|es| - 1] == init;
      }
      if |all| <= Cap {
        assert h == all;
      } else {
        assert h == all[..Cap];
        assert Prepended(h, e) == ([e] + all)[..Cap];
      }
    }
  }
}
