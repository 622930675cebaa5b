/** Fitting a Poker snapshot into its frame: cmd/momiao/poker_adapter.go (boundedPokerSnapshot). */
module PokerSnapshot {
  import opened Wrappers

  datatype Chat = Chat(messages: seq<string>, truncated: bool)
  datatype Host = Host(players: seq<string>, targets: seq<string>, targetsTruncated: bool, spectators: seq<string>,
                       spectatorsTruncated: bool)
  datatype Timeline = Timeline(events: seq<string>, truncated: bool)

  /** `core` stands for seats, hand state and control, which are never shortened. */
  datatype View = View(core: string, chat: Option<Chat>, host: Option<Host>, timeline: Timeline)

  const BUDGET: nat := 61_440

  function Weight(v: View): nat {
    (if v.chat.Some? then |v.chat.value.messages| else 0)
    + (if v.host.Some? then |v.host.value.targets| + |v.host.value.spectators| else 0) + |v.timeline.events|
  }

  /** One thing less: the oldest message, then the last target, then the last spectator, then the oldest event. */
  function Trim(v: View): View {
    if v.chat.Some? && v.chat.value.messages != [] then v.(chat := Some(Chat(v.chat.value.messages[1..], true)))
    else if v.host.Some? && v.host.value.targets != [] then
      v.(host := Some(v.host.value.(targets := v.host.value.targets[..|v.host.value.targets| - 1],
                                    targetsTruncated := true)))
    else if v.host.Some? && v.host.value.spectators != [] then
      v.(host := Some(v.host.value.(spectators := v.host.value.spectators[..|v.host.value.spectators| - 1],
                                    spectatorsTruncated := true)))
    else if v.timeline.events != [] then v.(timeline := Timeline(v.timeline.events[1..], true))
    else v
  }

  function Trimmed(v: View, n: nat): View
    decreases n
  {
    if n == 0 then v else Trimmed(Trim(v), n - 1)
  }

  /** The n-th form is the first that fits. */
  ghost predicate FirstFit(view: View, size: View -> nat, n: nat) {
    size(Trimmed(view, n)) <= BUDGET && forall k :: 0 <= k < n ==> size(Trimmed(view, k)) > BUDGET
  }

  /** The longest form that fits, trimming as little as possible; refused exactly when not even the bare core fits. */
  method Bounded(view: View, size: View -> nat) returns (r: Option<View>)
    ensures r.Some? ==> exists n :: FirstFit(view, size, n) && r.value == Trimmed(view, n)
    ensures r.None? ==> forall k :: 0 <= k <= Weight(view) ==> size(Trimmed(view, k)) > BUDGET
  {
    var v := view;
    ghost var n := 0;
    while true
      invariant v == Trimmed(view, n) && Weight(v) + n == Weight(view)
      invariant forall k :: 0 <= k < n ==> size(Trimmed(view, k)) > BUDGET
      decreases Weight(v)
    {
      if size(v) <= BUDGET {
        assert FirstFit(view, size, n);
        return Some(v);
      }
      TrimmedSnoc(view, n);
      if v.chat.Some? && v.chat.value.messages != [] {
        v := v.(chat := Some(Chat(v.chat.value.messages[1..], true)));
      } else if v.host.Some? && v.host.value.targets != [] {
        var h := v.host.value;
        v := v.(host := Some(h.(targets := h.targets[..|h.targets| - 1], targetsTruncated := true)));
      } else if v.host.Some? && v.host.value.spectators != [] {
        var h := v.host.value;
        v := v.(host := Some(h.(spectators := h.spectators[..|h.spectators| - 1], spectatorsTruncated := true)));
      } else if v.timeline.events != [] {
        v := v.(timeline := Timeline(v.timeline.events[1..], true));
      } else {
        return None;
      }
      n := n + 1;
    }
  }

  lemma {:induction false} TrimmedSnoc(v: View, n: nat)
    ensures Trimmed(v, n + 1) == Trim(Trimmed(v, n))
    decreases n
  {
    if n > 0 { TrimmedSnoc(Trim(v), n - 1); }
  }

  predicate Suffix(a: seq<string>, b: seq<string>) { |a| <= |b| && a == b[|b| - |a|..] }
  predicate Prefix(a: seq<string>, b: seq<string>) { a <= b }

  /** Core and players stand; chat and timeline keep their newest, the lists their first; every shortening is
      declared. */
  predicate Keeps(v: View, w: View) {
    && w.core == v.core && w.chat.Some? == v.chat.Some? && w.host.Some? == v.host.Some?
    && Suffix(w.timeline.events, v.timeline.events) && (w.timeline.events != v.timeline.events ==> w.timeline.truncated)
    && (v.chat.Some? ==>
          && Suffix(w.chat.value.messages, v.chat.value.messages)
          && (w.chat.value.messages != v.chat.value.messages ==> w.chat.value.truncated))
    && (v.host.Some? ==>
          && w.host.value.players == v.host.value.players
          && Prefix(w.host.value.targets, v.host.value.targets)
          && (w.host.value.targets != v.host.value.targets ==> w.host.value.targetsTruncated)
          && Prefix(w.host.value.spectators, v.host.value.spectators)
          && (w.host.value.spectators != v.host.value.spectators ==> w.host.value.spectatorsTruncated))
  }

  /** Nothing of a later kind goes while something of an earlier kind is left. */
  predicate Ordered(v: View, w: View) {
    && (w.timeline != v.timeline ==> w.host.None? || (w.host.value.targets == [] && w.host.value.spectators == []))
    && ((w.host != v.host || w.timeline != v.timeline) ==> w.chat.None? || w.chat.value.messages == [])
    && (v.host.Some? && w.host.Some? && w.host.value.spectators != v.host.value.spectators ==>
          w.host.value.targets == [])
  }

  lemma SuffixRest(a: seq<string>, b: seq<string>)
    requires Suffix(a, b) && a != []
    ensures Suffix(a[1..], b)
  {
  }

  lemma TrimKeeps(v: View, w: View)
    requires Keeps(v, w) && Ordered(v, w)
    ensures Keeps(v, Trim(w)) && Ordered(v, Trim(w))
  {
    if w.chat.Some? && w.chat.value.messages != [] {
      SuffixRest(w.chat.value.messages, v.chat.value.messages);
    } else if w.host.Some? && (w.host.value.targets != [] || w.host.value.spectators != []) {
      TrimHost(v, w);
    } else if w.timeline.events != [] {
      SuffixRest(w.timeline.events, v.timeline.events);
    }
  }

  lemma TrimHost(v: View, w: View)
    requires Keeps(v, w) && Ordered(v, w) && (w.chat.None? || w.chat.value.messages == []) && w.host.Some?
    requires w.host.value.targets != [] || w.host.value.spectators != []
    ensures Keeps(v, Trim(w)) && Ordered(v, Trim(w))
  {
    var h := w.host.value;
    if h.targets != [] { assert Prefix(h.targets[..|h.targets| - 1], v.host.value.targets); }
    else { assert Prefix(h.spectators[..|h.spectators| - 1], v.host.value.spectators); }
  }

  lemma {:induction false} TrimmedKeeps(v: View, n: nat)
    ensures Keeps(v, Trimmed(v, n)) && Ordered(v, Trimmed(v, n))
  {
    if n > 0 {
      TrimmedKeeps(v, n - 1);
      TrimmedSnoc(v, n - 1);
      TrimKeeps(v, Trimmed(v, n - 1));
    }
  }
}
