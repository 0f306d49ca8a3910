/** Messages read off the record graph alone: which message is open after a
    record, and which records still wait for it. */
module MessageRuns {
  import opened Base
  import opened Graphs
  import opened Placements

  /** p and k are consecutive on an unbranched stretch of the history. */
  ghost predicate Linked(c: Corpus, p: Key, k: Key) {
    Up(c.parents, k) == {p} && Children(c.parents, p) == {k}
  }

  /** k neither completes message m nor starts another. */
  ghost predicate Continues(c: Corpus, m: Message, k: Key) {
    k in c.flow && (c.flow[k] == Inside || c.flow[k] == Act(m))
  }

  /** From a, n linked records later, to k, with message m left open throughout. */
  ghost predicate InRun(c: Corpus, m: Message, n: nat, a: Key, k: Key) {
    if n == 0 then a == k
    else Continues(c, m, k) && exists p | p in Up(c.parents, k) :: Linked(c, p, k) && InRun(c, m, n - 1, a, p)
  }

  /** Message m is open after record k. */
  ghost predicate Open(c: Corpus, m: Message, k: Key) {
    exists n: nat, a :: a in c.flow && c.flow[a] == Act(m) && InRun(c, m, n, a, k)
  }

  /** d was logged inside a message that is still open after record k. */
  ghost predicate Waits(c: Corpus, d: Key, k: Key) {
    d in c.flow && c.flow[d] == Inside && exists m, n: nat :: Open(c, m, d) && InRun(c, m, n, d, k)
  }

  /** a was logged inside a message of which k is a later act: the model
      emitted k before it perceived a. */
  ghost predicate Late(c: Corpus, a: Key, k: Key) {
    k in c.flow && c.flow[k].Act? && Waits(c, a, k)
  }

  lemma OpenAfterAct(c: Corpus, m: Message, k: Key)
    requires k in c.flow && c.flow[k].Act?
    ensures Open(c, m, k) <==> c.flow[k].message == m
  {
    if c.flow[k].message == m {
      assert InRun(c, m, 0, k, k);
    }
    if Open(c, m, k) {
      var n: nat, a :| a in c.flow && c.flow[a] == Act(m) && InRun(c, m, n, a, k);
    }
  }

  lemma OpenAfterInside(c: Corpus, m: Message, k: Key)
    requires k in c.flow && c.flow[k] == Inside
    ensures Open(c, m, k) <==> exists p | p in Up(c.parents, k) :: Linked(c, p, k) && Open(c, m, p)
  {
    if Open(c, m, k) {
      var n: nat, a :| a in c.flow && c.flow[a] == Act(m) && InRun(c, m, n, a, k);
      assert n > 0;
      var p :| p in Up(c.parents, k) && Linked(c, p, k) && InRun(c, m, n - 1, a, p);
      assert Open(c, m, p);
    }
    if p :| p in Up(c.parents, k) && Linked(c, p, k) && Open(c, m, p) {
      var n: nat, a :| a in c.flow && c.flow[a] == Act(m) && InRun(c, m, n, a, p);
      assert InRun(c, m, n + 1, a, k);
    }
  }

  lemma NothingAfterPrompt(c: Corpus, m: Message, d: Key, k: Key)
    requires k in c.flow && c.flow[k] == Prompt
    ensures !Open(c, m, k) && !Waits(c, d, k)
  {
  }

  lemma {:induction false} RunKeepsOpen(c: Corpus, m: Message, n: nat, d: Key, k: Key)
    requires Open(c, m, d) && InRun(c, m, n, d, k)
    ensures Open(c, m, k)
  {
    if n > 0 {
      var p :| p in Up(c.parents, k) && Linked(c, p, k) && InRun(c, m, n - 1, d, p);
      RunKeepsOpen(c, m, n - 1, d, p);
      if c.flow[k] == Inside {
        OpenAfterInside(c, m, k);
      } else {
        OpenAfterAct(c, m, k);
      }
    }
  }

  lemma {:induction false} OpenUnique(c: Corpus, m: Message, m': Message, n: nat, a: Key, k: Key)
    requires a in c.flow && c.flow[a] == Act(m) && InRun(c, m, n, a, k)
    requires Open(c, m', k)
    ensures m == m'
  {
    if n == 0 {
      OpenAfterAct(c, m', k);
    } else if c.flow[k] == Inside {
      OpenAfterInside(c, m', k);
      var p :| p in Up(c.parents, k) && Linked(c, p, k) && InRun(c, m, n - 1, a, p);
      OpenUnique(c, m, m', n - 1, a, p);
    } else {
      OpenAfterAct(c, m', k);
    }
  }

  lemma OneMessageOpen(c: Corpus, m: Message, m': Message, k: Key)
    requires Open(c, m, k) && Open(c, m', k)
    ensures m == m'
  {
    var n: nat, a :| a in c.flow && c.flow[a] == Act(m) && InRun(c, m, n, a, k);
    OpenUnique(c, m, m', n, a, k);
  }

  /** A record waits for exactly the message that is open. */
  lemma WaitsNeedsOpen(c: Corpus, d: Key, k: Key) returns (m: Message, n: nat)
    requires Waits(c, d, k)
    ensures Open(c, m, d) && Open(c, m, k) && InRun(c, m, n, d, k)
  {
    m, n :| Open(c, m, d) && InRun(c, m, n, d, k);
    RunKeepsOpen(c, m, n, d, k);
  }

  lemma WaitsAfterInside(c: Corpus, d: Key, k: Key)
    requires k in c.flow && c.flow[k] == Inside
    ensures Waits(c, d, k) <==>
            exists p | p in Up(c.parents, k) :: Linked(c, p, k) && (exists m :: Open(c, m, p)) &&
                (d == k || Waits(c, d, p))
  {
    if Waits(c, d, k) {
      var m, n := WaitsNeedsOpen(c, d, k);
      OpenAfterInside(c, m, k);
      if n > 0 {
        var p :| p in Up(c.parents, k) && Linked(c, p, k) && InRun(c, m, n - 1, d, p);
        assert Waits(c, d, p);
        assert Open(c, m, p);
      }
    }
    if p :| p in Up(c.parents, k) && Linked(c, p, k) && (exists m :: Open(c, m, p)) && (d == k || Waits(c, d, p)) {
      if d == k {
        var m :| Open(c, m, p);
        OpenAfterInside(c, m, k);
        assert InRun(c, m, 0, k, k);
      } else {
        var m, n := WaitsNeedsOpen(c, d, p);
        assert InRun(c, m, n + 1, d, k);
      }
    }
  }

  lemma WaitsAfterAct(c: Corpus, d: Key, k: Key)
    requires k in c.flow && c.flow[k].Act?
    ensures Waits(c, d, k) <==>
            exists p | p in Up(c.parents, k) :: Linked(c, p, k) && Open(c, c.flow[k].message, p) && Waits(c, d, p)
  {
    if Waits(c, d, k) {
      var m, n := WaitsNeedsOpen(c, d, k);
      assert n > 0;
      var p :| p in Up(c.parents, k) && Linked(c, p, k) && InRun(c, m, n - 1, d, p);
      RunKeepsOpen(c, m, n - 1, d, p);
      assert Waits(c, d, p);
    }
    if p :| p in Up(c.parents, k) && Linked(c, p, k) && Open(c, c.flow[k].message, p) && Waits(c, d, p) {
      var m, n := WaitsNeedsOpen(c, d, p);
      OneMessageOpen(c, m, c.flow[k].message, p);
      assert InRun(c, m, n + 1, d, k);
    }
  }

  lemma {:induction false} RunReaches(c: Corpus, m: Message, n: nat, a: Key, k: Key)
    requires InRun(c, m, n, a, k)
    ensures Reach(c.parents, n, a, k)
  {
    if n > 0 {
      var p :| p in Up(c.parents, k) && Linked(c, p, k) && InRun(c, m, n - 1, a, p);
      RunReaches(c, m, n - 1, a, p);
    }
  }

  lemma WaitsBelow(c: Corpus, d: Key, k: Key)
    requires Waits(c, d, k)
    ensures AncestorOrSelf(c.parents, d, k)
  {
    var m, n := WaitsNeedsOpen(c, d, k);
    RunReaches(c, m, n, d, k);
  }

  lemma {:induction false} RunPoint(c: Corpus, m: Message, i: nat, n: nat, a: Key, s: Key) returns (q: Key)
    requires i <= n && InRun(c, m, n, a, s)
    ensures InRun(c, m, i, a, q) && InRun(c, m, n - i, q, s)
    ensures i == n ==> q == s
  {
    if i == n {
      q := s;
    } else {
      var p :| p in Up(c.parents, s) && Linked(c, p, s) && InRun(c, m, n - 1, a, p);
      q := RunPoint(c, m, i, n - 1, a, p);
    }
  }

  lemma {:induction false} RunUnique(c: Corpus, m: Message, i: nat, a: Key, p: Key, q: Key)
    requires InRun(c, m, i, a, p) && InRun(c, m, i, a, q)
    ensures p == q
  {
    if i > 0 {
      var p' :| p' in Up(c.parents, p) && Linked(c, p', p) && InRun(c, m, i - 1, a, p');
      var q' :| q' in Up(c.parents, q) && Linked(c, q', q) && InRun(c, m, i - 1, a, q');
      RunUnique(c, m, i - 1, a, p', q');
      assert p in Children(c.parents, q');
    }
  }

  /** An unbranched run has no way out but its end: what descends from its
      start lies on the run or descends from its end. */
  lemma {:induction false} RunIsOnlyWayDown(c: Corpus, m: Message, n: nat, x: Key, s: Key, j: nat, k: Key)
      returns (past: bool, i: nat, rest: nat)
    requires InRun(c, m, n, x, s) && Reach(c.parents, j, x, k)
    ensures past ==> AncestorOrSelf(c.parents, s, k)
    ensures !past ==> i + rest == n && rest > 0 && InRun(c, m, i, x, k) && InRun(c, m, rest, k, s)
    decreases j
  {
    past, i, rest := n == 0, 0, n;
    if j > 0 {
      var p :| p in Up(c.parents, k) && Reach(c.parents, j - 1, x, p);
      past, i, rest := RunIsOnlyWayDown(c, m, n, x, s, j - 1, p);
      if past {
        ParentIsAncestor(c.parents, p, k);
        AncestorTransitive(c.parents, s, p, k);
      } else {
        var q := RunPoint(c, m, i + 1, n, x, s);
        var p' :| p' in Up(c.parents, q) && Linked(c, p', q) && InRun(c, m, i, x, p');
        RunUnique(c, m, i, x, p, p');
        assert k in Children(c.parents, p');
        assert k == q;
        past, i, rest := i + 1 == n, i + 1, rest - 1;
      }
    }
  }

  /** Nor a way in but its start. */
  lemma {:induction false} RunIsOnlyWayUp(c: Corpus, m: Message, n: nat, x: Key, s: Key, j: nat, a: Key)
      returns (above: bool, i: nat)
    requires InRun(c, m, n, x, s) && Reach(c.parents, j, a, s)
    ensures above ==> AncestorOrSelf(c.parents, a, x)
    ensures !above ==> InRun(c, m, i, x, a)
    decreases n
  {
    above, i := false, n;
    if n == 0 {
      above := true;
      assert a != x ==> j > 0;
    } else if j > 0 {
      var p :| p in Up(c.parents, s) && Linked(c, p, s) && InRun(c, m, n - 1, x, p);
      var p' :| p' in Up(c.parents, s) && Reach(c.parents, j - 1, a, p');
      assert p == p';
      above, i := RunIsOnlyWayUp(c, m, n - 1, x, p, j - 1, a);
    }
  }
}
