/**
 * The thought entry form (client/src/components/ThoughtForm/index.js) without
 * its markup: two state variables, `thoughtText` and `characterCount`, changed
 * by `handleChange` and `handleFormSubmit`, and the `update` callback of the
 * `addThought` mutation, which writes the new thought into two cached queries.
 *
 * `.length` is JavaScript's: UTF-16 code units (JsString.Utf16Length).
 */
module ThoughtForm {
  import opened Wrappers
  import opened JsString

  /** The most `.length` units a thought may have. */
  const MaxLength: nat := 280

  // ---------------------------------------------------------------------------
  // The form state

  /** The values of the two state variables. */
  datatype FormState = FormState(thoughtText: string, characterCount: int)

  /** `useState('')` and `useState(0)`. */
  const Initial: FormState := FormState("", 0)

  /** The count is the `.length` of the text, and the text is within the limit. */
  predicate Consistent(s: FormState) {
    s.characterCount == Utf16Length(s.thoughtText) <= MaxLength
  }

  /**
   * `handleChange` with the textarea's new value: taken, with its length as
   * the count, when it is within the limit; ignored otherwise.
   */
  function Change(s: FormState, value: string): (t: FormState)
    ensures Utf16Length(value) <= MaxLength ==> t.thoughtText == value && Consistent(t)
    ensures Utf16Length(value) > MaxLength ==> t == s
  {
    if Utf16Length(value) <= 280 then FormState(value, Utf16Length(value)) else s
  }

  /** `handleFormSubmit` once the mutation has settled: cleared on success, kept on failure. */
  function Submit(s: FormState, succeeded: bool): (t: FormState)
    ensures succeeded ==> t.thoughtText == "" && t.characterCount == 0
    ensures !succeeded ==> t == s
  {
    if succeeded then FormState("", 0) else s
  }

  /** What can happen to the form: the user edits the text, or a submit settles. */
  datatype Event = TextChanged(value: string) | Submitted(succeeded: bool)

  function Step(s: FormState, e: Event): (t: FormState)
    ensures Consistent(s) ==> Consistent(t)
    ensures e == Submitted(false) ==> t == s
  {
    match e
    case TextChanged(value) => Change(s, value)
    case Submitted(succeeded) => Submit(s, succeeded)
  }

  /** The state after a sequence of events. */
  function Run(s: FormState, events: seq<Event>): (t: FormState)
    ensures (forall k :: 0 <= k < |events| ==> events[k] == Submitted(false)) ==> t == s
    decreases |events|
  {
    if events == [] then s else Run(Step(s, events[0]), events[1..])
  }

  /** The form starts consistent. */
  lemma InitialIsConsistent()
    ensures Consistent(Initial) && Initial.thoughtText == "" && Initial.characterCount == 0
  {
  }

  /** Every event keeps the form consistent, so the count never exceeds 280 and always matches the text. */
  lemma {:induction false} RunKeepsConsistent(s: FormState, events: seq<Event>)
    requires Consistent(s)
    ensures Consistent(Run(s, events))
    decreases |events|
  {
    if events != [] {
      RunKeepsConsistent(Step(s, events[0]), events[1..]);
    }
  }

  /**
   * Starting from the initial state, the text is always empty or a value the
   * user typed that was within the limit.
   */
  lemma TextIsEmptyOrTyped(events: seq<Event>)
    ensures var text := Run(Initial, events).thoughtText;
            text == "" || (Utf16Length(text) <= MaxLength && TextChanged(text) in events)
  {
    TypedTextStays(Initial, events, []);
    assert [] + events == events;
  }

  /** Helper for TextIsEmptyOrTyped: the events already seen are `seen`. */
  lemma {:induction false} TypedTextStays(s: FormState, events: seq<Event>, seen: seq<Event>)
    requires s.thoughtText == "" || (Utf16Length(s.thoughtText) <= MaxLength && TextChanged(s.thoughtText) in seen)
    ensures var text := Run(s, events).thoughtText;
            text == "" || (Utf16Length(text) <= MaxLength && TextChanged(text) in seen + events)
    decreases |events|
  {
    if events != [] {
      var e := events[0];
      assert seen + events == (seen + [e]) + events[1..];
      TypedTextStays(Step(s, e), events[1..], seen + [e]);
    }
  }

  /**
   * The class of the counter paragraph, `m-0 ${characterCount === 280 ? 'text-error' : ''}`:
   * the error styling appears exactly when the count is 280.
   */
  function CounterClassName(count: int): (r: string)
    ensures count == MaxLength ==> r == "m-0 text-error"
    ensures count != MaxLength ==> r == "m-0 "
  {
    "m-0 " + (if count == 280 then "text-error" else "")
  }

  /** In a consistent form the limit styling shows exactly when the text has the full 280 units. */
  lemma LimitStylingIffFull(s: FormState)
    requires Consistent(s)
    ensures CounterClassName(s.characterCount) == "m-0 text-error" <==> Utf16Length(s.thoughtText) == MaxLength
  {
    assert "m-0 " != "m-0 text-error";
  }

  // ---------------------------------------------------------------------------
  // The cached queries

  datatype Reaction = Reaction(id: string, reactionBody: string, createdAt: string, username: string)

  /** A thought as the queries return it. */
  datatype Thought = Thought(
    id: string,
    thoughtText: string,
    createdAt: string,
    username: string,
    reactionCount: int,
    reactions: seq<Reaction>)

  datatype Friend = Friend(id: string, username: string)

  /** The signed-in user as the `me` query returns it. */
  datatype Me = Me(
    id: string,
    username: string,
    email: string,
    friendCount: int,
    thoughts: seq<Thought>,
    friends: seq<Friend>)

  /** `[addThought, ...thoughts]`: the new thought first, then the old feed in its order. */
  function PrependThought(t: Thought, feed: seq<Thought>): (r: seq<Thought>)
    ensures |r| == |feed| + 1 && r[0] == t
    ensures forall k :: 0 <= k < |feed| ==> r[k + 1] == feed[k]
  {
    [t] + feed
  }

  /** `{...me, thoughts: [...me.thoughts, addThought]}`: the new thought last; every other field kept. */
  function AppendThought(me: Me, t: Thought): (r: Me)
    ensures |r.thoughts| == |me.thoughts| + 1 && r.thoughts[|me.thoughts|] == t
    ensures r.thoughts[..|me.thoughts|] == me.thoughts
    ensures r.id == me.id && r.username == me.username && r.email == me.email
    ensures r.friendCount == me.friendCount && r.friends == me.friends
  {
    me.(thoughts := me.thoughts + [t])
  }

  /** The reverse of a sequence. */
  function Reverse<T>(s: seq<T>): seq<T>
    decreases |s|
  {
    if s == [] then [] else Reverse(s[1..]) + [s[0]]
  }

  /** The feed after several thoughts were added one by one. */
  function PrependAll(ts: seq<Thought>, feed: seq<Thought>): seq<Thought>
    decreases |ts|
  {
    if ts == [] then feed else PrependAll(ts[1..], PrependThought(ts[0], feed))
  }

  /** The `me` entry after several thoughts were added one by one. */
  function AppendAll(me: Me, ts: seq<Thought>): Me
    decreases |ts|
  {
    if ts == [] then me else AppendAll(AppendThought(me, ts[0]), ts[1..])
  }

  /** Thoughts added one after another appear newest first in the feed. */
  lemma {:induction false} FeedIsNewestFirst(ts: seq<Thought>, feed: seq<Thought>)
    ensures PrependAll(ts, feed) == Reverse(ts) + feed
    decreases |ts|
  {
    if ts != [] {
      FeedIsNewestFirst(ts[1..], [ts[0]] + feed);
      assert Reverse(ts[1..]) + ([ts[0]] + feed) == (Reverse(ts[1..]) + [ts[0]]) + feed;
    }
  }

  /** Thoughts added one after another appear oldest first in `me.thoughts`, the rest of `me` untouched. */
  lemma {:induction false} ProfileIsOldestFirst(me: Me, ts: seq<Thought>)
    ensures AppendAll(me, ts) == me.(thoughts := me.thoughts + ts)
    decreases |ts|
  {
    if ts != [] {
      var me' := AppendThought(me, ts[0]);
      ProfileIsOldestFirst(me', ts[1..]);
      assert me'.thoughts + ts[1..] == me.thoughts + ts;
    }
  }

  /**
   * What the cache holds for the two queries. None stands for a query that is
   * not in the cache, whose `readQuery` throws.
   */
  datatype CacheState = CacheState(thoughts: Option<seq<Thought>>, me: Option<Me>)

  /** The outcome of `update`: the new cache, and whether the callback returned without throwing. */
  datatype UpdateOutcome = UpdateOutcome(cache: CacheState, completed: bool)

  /**
   * `update(cache, {data: {addThought}})`: the feed gains the thought at the
   * front if it is cached (a failed read is caught and logged), then `me`
   * gains it at the end; if `me` is not cached that read throws out of the
   * callback, after the feed write has happened.
   */
  function UpdateCache(c: CacheState, t: Thought): (o: UpdateOutcome)
    ensures o.completed <==> c.me.Some?
    ensures c.thoughts.Some? <==> o.cache.thoughts.Some?
    ensures c.me.Some? <==> o.cache.me.Some?
  {
    var thoughts := if c.thoughts.Some? then Some(PrependThought(t, c.thoughts.value)) else c.thoughts;
    if c.me.Some? then UpdateOutcome(CacheState(thoughts, Some(AppendThought(c.me.value, t))), true)
    else UpdateOutcome(CacheState(thoughts, None), false)
  }

  /**
   * The two writes are independent: a feed that is not cached does not stop
   * the `me` update, and a `me` that is not cached does not undo the feed write.
   */
  lemma UpdateStepsIndependent(c: CacheState, t: Thought)
    ensures c.thoughts.None? ==> UpdateCache(c, t).cache.thoughts.None?
    ensures c.me.Some? ==>
              UpdateCache(c, t).completed
              && UpdateCache(c, t).cache.me == Some(c.me.value.(thoughts := c.me.value.thoughts + [t]))
    ensures c.thoughts.Some? ==> UpdateCache(c, t).cache.thoughts == Some([t] + c.thoughts.value)
    ensures c.me.None? ==> !UpdateCache(c, t).completed && UpdateCache(c, t).cache.me.None?
  {
  }

  // ---------------------------------------------------------------------------
  // The component, with its state and the Apollo cache updated in place

  /** The Apollo cache, as far as the form's `update` callback touches it. */
  class Cache {
    var thoughts: Option<seq<Thought>>
    var me: Option<Me>

    function State(): CacheState
      reads this
    {
      CacheState(thoughts, me)
    }

    constructor (thoughts: Option<seq<Thought>>, me: Option<Me>)
      ensures State() == CacheState(thoughts, me)
    {
      this.thoughts := thoughts;
      this.me := me;
    }

    /** The `update` callback; `completed` is false when it throws. */
    method Update(addThought: Thought) returns (completed: bool)
      modifies this
      ensures UpdateOutcome(State(), completed) == UpdateCache(old(State()), addThought)
    {
      if thoughts.Some? {
        var feed := thoughts.value;
        thoughts := Some([addThought] + feed);
      }
      if me.None? {
        return false;
      }
      var profile := me.value;
      me := Some(profile.(thoughts := profile.thoughts + [addThought]));
      return true;
    }
  }

  /** The `update` callback run on a cache that holds the given queries. */
  method RunUpdate(thoughts: Option<seq<Thought>>, me: Option<Me>, addThought: Thought)
    returns (after: CacheState, completed: bool)
    ensures UpdateOutcome(after, completed) == UpdateCache(CacheState(thoughts, me), addThought)
    ensures completed <==> me.Some?
  {
    var cache := new Cache(thoughts, me);
    completed := cache.Update(addThought);
    after := cache.State();
  }

  /** The component's state variables. */
  class Form {
    var thoughtText: string
    var characterCount: int

    function State(): FormState
      reads this
    {
      FormState(thoughtText, characterCount)
    }

    predicate Valid()
      reads this
    {
      Consistent(State())
    }

    /** First render: empty text, count 0. */
    constructor ()
      ensures State() == Initial && Valid()
    {
      thoughtText := "";
      characterCount := 0;
    }

    /** `handleChange(event)` with `event.target.value == value`. */
    method HandleChange(value: string)
      requires Valid()
      modifies this
      ensures State() == Change(old(State()), value) && Valid()
    {
      if Utf16Length(value) <= 280 {
        thoughtText := value;
        characterCount := Utf16Length(value);
      }
    }

    /**
     * `handleFormSubmit(event)`: sends the current text as the mutation's
     * `thoughtText` variable; `addThought` says whether the mutation succeeds
     * for that text. The form is cleared only on success.
     */
    method HandleFormSubmit(addThought: string -> bool) returns (sent: string)
      requires Valid()
      modifies this
      ensures sent == old(thoughtText)
      ensures State() == Submit(old(State()), addThought(sent)) && Valid()
    {
      sent := thoughtText;
      var succeeded := addThought(sent);
      if succeeded {
        thoughtText := "";
        characterCount := 0;
      }
    }
  }
}
