/**
 * The stack of active requests an `Application` keeps while requests and
 * their sub-requests run: a list of request-or-null entries, whose last
 * entry is the current one. PHP's `empty()` on the list tests only its
 * length, so a stack whose top entry is `null` is not empty.
 */
module RequestStack {
  import opened Wrappers

  /** A request object, known only by its identity. */
  datatype Request = Request(id: nat)

  /** `null` is stored as `None`. */
  type Stack = seq<Option<Request>>

  /** `setActiveRequest`: the entry goes on the end, the rest stays. */
  function Push(s: Stack, entry: Option<Request>): (r: Stack)
    ensures |r| == |s| + 1
    ensures r[..|s|] == s && r[|s|] == entry
  {
    s + [entry]
  }

  /**
   * `getActiveRequest`: null for an empty list, its last entry otherwise. So
   * null comes back exactly when the stack is empty or its top entry is null.
   */
  function Peek(s: Stack): (r: Option<Request>)
    ensures r.None? <==> s == [] || s[|s| - 1].None?
    ensures r.Some? ==> r == s[|s| - 1]
  {
    if |s| == 0 then None else s[|s| - 1]
  }

  /**
   * `resetActiveRequest`: on a non-empty stack the top entry goes, whether a
   * request or null, and the rest stays; an empty stack is left alone.
   */
  function Pop(s: Stack): (r: Stack)
    ensures s == [] ==> r == []
    ensures s != [] ==> |r| == |s| - 1 && r + [s[|s| - 1]] == s
  {
    if |s| == 0 then s else s[..|s| - 1]
  }

  /** The entries pushed one after another, first to last. */
  function PushAll(s: Stack, entries: seq<Option<Request>>): Stack
    decreases |entries|
  {
    if entries == [] then s else PushAll(Push(s, entries[0]), entries[1..])
  }

  /** `count` resets one after another. */
  function PopN(s: Stack, count: nat): Stack {
    if count == 0 then s else PopN(Pop(s), count - 1)
  }

  /** Right after a push, the pushed entry (null included) is the active one. */
  lemma PeekAfterPush(s: Stack, entry: Option<Request>)
    ensures Peek(Push(s, entry)) == entry
  {
  }

  /** A reset undoes the push before it. */
  lemma PopAfterPush(s: Stack, entry: Option<Request>)
    ensures Pop(Push(s, entry)) == s
  {
  }

  /**
   * A pushed null reads like an empty stack, yet it is an entry: the next
   * reset removes it rather than what lies below it.
   */
  lemma NullTop(s: Stack)
    ensures Peek(Push(s, None)) == Peek([])
    ensures Push(s, None) != [] && Pop(Push(s, None)) == s
  {
  }

  /** Pushing a list of entries appends it. */
  lemma {:induction false} PushAllAppends(s: Stack, entries: seq<Option<Request>>)
    ensures PushAll(s, entries) == s + entries
    decreases |entries|
  {
    if entries != [] {
      PushAllAppends(Push(s, entries[0]), entries[1..]);
      assert Push(s, entries[0]) + entries[1..] == s + entries;
    }
  }

  /** Each reset removes one entry from the top until none are left. */
  lemma {:induction false} PopNTakesPrefix(s: Stack, count: nat)
    ensures PopN(s, count) == if count <= |s| then s[..|s| - count] else []
  {
    if count > 0 {
      PopNTakesPrefix(Pop(s), count - 1);
      if count <= |s| {
        assert Pop(s) == s[..|s| - 1];
        assert Pop(s)[..|Pop(s)| - (count - 1)] == s[..|s| - count];
      }
    }
  }

  /**
   * Starting from an empty stack, N pushes followed by M resets leave the
   * first N - M entries pushed (none when M >= N), and the active request is
   * then the (N - M)-th entry pushed, or null.
   */
  lemma PushesThenResets(entries: seq<Option<Request>>, resets: nat)
    ensures PopN(PushAll([], entries), resets) ==
            if resets <= |entries| then entries[..|entries| - resets] else []
    ensures Peek(PopN(PushAll([], entries), resets)) ==
            if resets < |entries| then entries[|entries| - resets - 1] else None
  {
    PushAllAppends([], entries);
    assert [] + entries == entries;
    PopNTakesPrefix(entries, resets);
  }
}
