/**
 * The conversation log entries and the context window sent with each
 * request (the `slice(-6).filter(...).map(...)` chain of `sendToBackend`).
 */
module Chat {
  import opened Text
  import opened Seqs

  /** One `chatHistory` entry, `{sender, text}`; the script writes the senders "user" and "ai". */
  datatype Msg = Msg(sender: string, text: string)

  /** One context entry as sent: `{role, parts: [{text}]}` with its single part flattened to `content`. */
  datatype Part = Part(role: string, content: string)

  const WindowSize: nat := 6

  /** The prefix the window filter drops. */
  const FailurePrefix := "Sorry, couldn't get a response."

  /** `history.slice(-6)`: the last six entries, or all of them when there are fewer. */
  function Recent(h: seq<Msg>): (r: seq<Msg>)
    ensures |r| == if |h| <= WindowSize then |h| else WindowSize
    ensures r == h[|h| - |r|..]
  {
    if |h| <= WindowSize then h else h[|h| - WindowSize..]
  }

  predicate Keep(m: Msg) {
    !StartsWith(m.text, FailurePrefix)
  }

  /** The filter step: the entries that do not start with the failure prefix, in order. */
  function Kept(s: seq<Msg>): (r: seq<Msg>)
    ensures |r| <= |s|
    ensures forall m :: m in r ==> m in s && Keep(m)
  {
    if s == [] then [] else (if Keep(s[0]) then [s[0]] else []) + Kept(s[1..])
  }

  function RoleOf(sender: string): string {
    if sender == "user" then "user" else "model"
  }

  function ToPart(m: Msg): Part {
    Part(RoleOf(m.sender), m.text)
  }

  /** The map step. */
  function Parts(s: seq<Msg>): seq<Part> {
    seq(|s|, i requires 0 <= i < |s| => ToPart(s[i]))
  }

  /** The context window sent with a request built from history `h`. */
  function ContextWindow(h: seq<Msg>): (w: seq<Part>)
    ensures |w| <= WindowSize && |w| <= |h|
    ensures forall p :: p in w ==> !StartsWith(p.content, FailurePrefix)
    ensures forall p :: p in w ==> p.role == "user" || p.role == "model"
  {
    var k := Kept(Recent(h));
    var w := Parts(k);
    forall p | p in w
      ensures !StartsWith(p.content, FailurePrefix) && (p.role == "user" || p.role == "model")
    {
      var i :| 0 <= i < |w| && w[i] == p;
      assert k[i] in k;
    }
    w
  }

  /** The filter keeps its entries in their original order and keeps every entry that passes. */
  lemma {:induction false} KeptSpec(s: seq<Msg>)
    ensures Subsequence(Kept(s), s)
    ensures forall m :: m in s && Keep(m) ==> m in Kept(s)
  {
    if s != [] {
      KeptSpec(s[1..]);
      if Keep(s[0]) {
        assert Kept(s)[0] == s[0] && Kept(s)[1..] == Kept(s[1..]);
      } else {
        assert Kept(s) == Kept(s[1..]);
        SubsequenceSkip(Kept(s[1..]), s);
      }
      forall m | m in s && Keep(m)
        ensures m in Kept(s)
      {
        if m != s[0] {
          assert m in s[1..];
        }
      }
    }
  }

  /** Filtering distributes over concatenation, so the filter never reorders. */
  lemma {:induction false} KeptAppend(a: seq<Msg>, b: seq<Msg>)
    ensures Kept(a + b) == Kept(a) + Kept(b)
  {
    if a != [] {
      assert (a + b)[0] == a[0] && (a + b)[1..] == a[1..] + b;
      KeptAppend(a[1..], b);
    } else {
      assert a + b == b;
    }
  }

  /** With no failure entries among them, the filter keeps all entries. */
  lemma {:induction false} KeptClean(s: seq<Msg>)
    requires forall i :: 0 <= i < |s| ==> Keep(s[i])
    ensures Kept(s) == s
  {
    if s != [] {
      KeptClean(s[1..]);
    }
  }

  /**
   * When none of the last six entries starts with the failure prefix, the
   * window is exactly those entries, in order, each with its role mapped.
   */
  lemma WindowOfCleanHistory(h: seq<Msg>)
    requires forall m :: m in Recent(h) ==> Keep(m)
    ensures var w := ContextWindow(h);
      && |w| == (if |h| <= WindowSize then |h| else WindowSize)
      && forall i :: 0 <= i < |w| ==> w[i] == ToPart(h[|h| - |w| + i])
  {
    var r := Recent(h);
    forall i | 0 <= i < |r|
      ensures Keep(r[i])
    {
      assert r[i] in r;
    }
    KeptClean(r);
    assert ContextWindow(h) == Parts(r);
  }

  /** Every passing entry among the last six is in the window (the converse is `WindowFromRecent`). */
  lemma WindowMembership(h: seq<Msg>, m: Msg)
    ensures m in Recent(h) && Keep(m) ==> ToPart(m) in ContextWindow(h)
  {
    var k := Kept(Recent(h));
    KeptSpec(Recent(h));
    if m in Recent(h) && Keep(m) {
      var i :| 0 <= i < |k| && k[i] == m;
      assert Parts(k)[i] == ToPart(m);
    }
  }

  /** Mapping entries to parts keeps the subsequence relation between two logs. */
  lemma {:induction false} PartsSubsequence(a: seq<Msg>, b: seq<Msg>)
    requires Subsequence(a, b)
    ensures Subsequence(Parts(a), Parts(b))
    decreases |b|
  {
    if a != [] {
      assert Parts(b)[0] == ToPart(b[0]) && Parts(b)[1..] == Parts(b[1..]);
      if a[0] == b[0] {
        assert Parts(a)[0] == ToPart(a[0]) && Parts(a)[1..] == Parts(a[1..]);
        PartsSubsequence(a[1..], b[1..]);
      } else {
        PartsSubsequence(a, b[1..]);
        SubsequenceSkip(Parts(a), Parts(b));
      }
    }
  }

  /**
   * The window is drawn, in order, from the last six entries: it is a
   * subsequence of their parts, and each of its parts is the part of a
   * passing entry among them.
   */
  lemma WindowFromRecent(h: seq<Msg>)
    ensures Subsequence(ContextWindow(h), Parts(Recent(h)))
    ensures forall p :: p in ContextWindow(h) ==> exists m :: m in Recent(h) && Keep(m) && p == ToPart(m)
  {
    var k := Kept(Recent(h));
    KeptSpec(Recent(h));
    PartsSubsequence(k, Recent(h));
    forall p | p in ContextWindow(h)
      ensures exists m :: m in Recent(h) && Keep(m) && p == ToPart(m)
    {
      var i :| 0 <= i < |k| && Parts(k)[i] == p;
      assert k[i] in k;
    }
  }

  /**
   * The window of a history whose last entry is the user's query ends with
   * that query (the query is pushed before the window is computed).
   */
  lemma WindowEndsWithQuery(h: seq<Msg>, q: string)
    requires !StartsWith(q, FailurePrefix)
    ensures var w := ContextWindow(h + [Msg("user", q)]);
      |w| >= 1 && w[|w| - 1] == Part("user", q)
  {
    var h' := h + [Msg("user", q)];
    var r := Recent(h');
    assert r == r[..|r| - 1] + [Msg("user", q)];
    KeptAppend(r[..|r| - 1], [Msg("user", q)]);
    assert Kept([Msg("user", q)]) == [Msg("user", q)];
  }
}
