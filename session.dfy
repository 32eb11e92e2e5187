/** The per-session state the chat page keeps between reruns: a dictionary from key
    to value in which a key may be absent. The page fills in the missing keys, records
    a reply in the conversation, logs a mood and counts mindfulness exercises. */
module Session {
  import opened Liaison
  import MentalHealth

  /** The kinds of value the page stores. */
  datatype Value =
    | Turns(turns: seq<Turn>)
    | Moods(moods: seq<int>)
    | Entries(entries: seq<string>)
    | Count(n: int)
    | Flag(on: bool)

  const ConversationHistory := "conversation_history"
  const MoodHistory := "mood_history"
  const JournalEntries := "journal_entries"
  const MindfulnessSessions := "mindfulness_sessions"
  const Processing := "processing"
  const DebugMode := "debug_mode"

  /** The value each key starts with when the page first sees it missing. */
  function Defaults(): map<string, Value> {
    map[
      ConversationHistory := Turns([]),
      MoodHistory := Moods([]),
      JournalEntries := Entries([]),
      MindfulnessSessions := Count(0),
      Processing := Flag(false),
      DebugMode := Flag(false)
    ]
  }

  /** The state after initialisation: keys already present keep their values,
      missing keys get their defaults, no other key appears. */
  function WithDefaults(m: map<string, Value>): (r: map<string, Value>)
    ensures r.Keys == m.Keys + Defaults().Keys
    ensures forall k :: k in m ==> r[k] == m[k]
    ensures forall k :: k in Defaults() && k !in m ==> r[k] == Defaults()[k]
  {
    Defaults() + m
  }

  /** Running initialisation again changes nothing. */
  lemma WithDefaultsIdempotent(m: map<string, Value>)
    ensures WithDefaults(WithDefaults(m)) == WithDefaults(m)
  {
  }

  /** One `if key not in state: set it` step of the page's initialisation. */
  function SetDefault(m: map<string, Value>, k: string, v: Value): (r: map<string, Value>)
    ensures k in r && r[k] == (if k in m then m[k] else v)
    ensures r.Keys == m.Keys + {k}
    ensures forall j :: j in m ==> r[j] == m[j]
  {
    if k in m then m else m[k := v]
  }

  /** Setting one missing key is the same as adding it to the defaults applied so far. */
  lemma AddDefault(applied: map<string, Value>, m: map<string, Value>, k: string, v: Value)
    requires k !in applied
    ensures SetDefault(applied + m, k, v) == applied[k := v] + m
  {
  }

  /** The six steps, in the page's order, give WithDefaults. */
  lemma InitialisationSteps(m: map<string, Value>)
    ensures
      var m1 := SetDefault(m, ConversationHistory, Turns([]));
      var m2 := SetDefault(m1, MoodHistory, Moods([]));
      var m3 := SetDefault(m2, JournalEntries, Entries([]));
      var m4 := SetDefault(m3, MindfulnessSessions, Count(0));
      var m5 := SetDefault(m4, Processing, Flag(false));
      SetDefault(m5, DebugMode, Flag(false)) == WithDefaults(m)
  {
    var d0: map<string, Value> := map[];
    assert m == d0 + m;
    AddDefault(d0, m, ConversationHistory, Turns([]));
    var d1 := d0[ConversationHistory := Turns([])];
    AddDefault(d1, m, MoodHistory, Moods([]));
    var d2 := d1[MoodHistory := Moods([])];
    AddDefault(d2, m, JournalEntries, Entries([]));
    var d3 := d2[JournalEntries := Entries([])];
    AddDefault(d3, m, MindfulnessSessions, Count(0));
    var d4 := d3[MindfulnessSessions := Count(0)];
    AddDefault(d4, m, Processing, Flag(false));
    var d5 := d4[Processing := Flag(false)];
    AddDefault(d5, m, DebugMode, Flag(false));
    assert d5[DebugMode := Flag(false)] == Defaults();
  }

  /** Each of the page's keys, when present, holds the kind of value the page puts there. */
  predicate WellTyped(m: map<string, Value>) {
    && (ConversationHistory in m ==> m[ConversationHistory].Turns?)
    && (MoodHistory in m ==> m[MoodHistory].Moods?)
    && (JournalEntries in m ==> m[JournalEntries].Entries?)
    && (MindfulnessSessions in m ==> m[MindfulnessSessions].Count?)
    && (Processing in m ==> m[Processing].Flag?)
    && (DebugMode in m ==> m[DebugMode].Flag?)
  }

  /** Every key the page reads is present with the right kind of value. */
  predicate Ready(m: map<string, Value>) {
    Defaults().Keys <= m.Keys && WellTyped(m)
  }

  /** Initialisation makes a well-typed state ready. */
  lemma WithDefaultsReady(m: map<string, Value>)
    requires WellTyped(m)
    ensures Ready(WithDefaults(m))
  {
  }

  /** The conversation after a reply: unchanged when the error slot is truthy,
      otherwise extended by the user's turn and then the assistant's. */
  function HistoryAfterReply(history: seq<Turn>, userMessage: string, reply: AiReply): (after: seq<Turn>)
    requires Truthy(reply.error) || reply.response.Some?
    ensures Truthy(reply.error) ==> after == history
    ensures !Truthy(reply.error) ==>
      && |after| == |history| + 2
      && after[..|history|] == history
      && after[|history|] == Turn(User, userMessage)
      && after[|history| + 1] == Turn(Assistant, reply.response.value)
  {
    if Truthy(reply.error) then history
    else history + [Turn(User, userMessage)] + [Turn(Assistant, reply.response.value)]
  }

  /** Only a successful reply changes the conversation, and then by exactly two turns
      at the end, the user's message followed by the model's text, the earlier
      turns untouched. */
  lemma OnlySuccessChangesHistory(history: seq<Turn>, userMessage: string,
                                  post: (string, Payload, nat) -> HttpOutcome)
    ensures var reply := GetAiResponse(userMessage, history, post);
      var after := HistoryAfterReply(history, userMessage, reply);
      && (after != history <==> reply.response.Some?)
      && (reply.response.Some? ==>
            |after| == |history| + 2
            && after[..|history|] == history
            && after[|history|] == Turn(User, userMessage)
            && after[|history| + 1] == Turn(Assistant, reply.response.value))
  {
  }

  /** The mood list `setdefault` finds: the stored one, or a fresh empty list. */
  function MoodsOf(m: map<string, Value>): (moods: seq<int>)
    requires MoodHistory in m ==> m[MoodHistory].Moods?
    ensures MoodHistory !in m ==> moods == []
    ensures MoodHistory in m ==> moods == m[MoodHistory].moods
  {
    if MoodHistory in m then m[MoodHistory].moods else []
  }

  class SessionState {
    var values: map<string, Value>

    ghost predicate Valid()
      reads this
    {
      WellTyped(values)
    }

    /** A new session starts with no keys at all. */
    constructor ()
      ensures Valid() && values == map[]
    {
      values := map[];
    }

    /** Sets each of the six keys that is missing and leaves the present ones alone. */
    method InitDefaults()
      requires Valid()
      modifies this
      ensures values == WithDefaults(old(values))
      ensures Valid() && Ready(values)
    {
      ghost var m := values;
      InitialisationSteps(m);
      if ConversationHistory !in values {
        values := values[ConversationHistory := Turns([])];
      }
      assert values == SetDefault(m, ConversationHistory, Turns([]));
      ghost var m1 := values;
      if MoodHistory !in values {
        values := values[MoodHistory := Moods([])];
      }
      assert values == SetDefault(m1, MoodHistory, Moods([]));
      ghost var m2 := values;
      if JournalEntries !in values {
        values := values[JournalEntries := Entries([])];
      }
      assert values == SetDefault(m2, JournalEntries, Entries([]));
      ghost var m3 := values;
      if MindfulnessSessions !in values {
        values := values[MindfulnessSessions := Count(0)];
      }
      assert values == SetDefault(m3, MindfulnessSessions, Count(0));
      ghost var m4 := values;
      if Processing !in values {
        values := values[Processing := Flag(false)];
      }
      assert values == SetDefault(m4, Processing, Flag(false));
      ghost var m5 := values;
      if DebugMode !in values {
        values := values[DebugMode := Flag(false)];
      }
      assert values == SetDefault(m5, DebugMode, Flag(false));
      WithDefaultsReady(m);
    }

    /** Handles a submitted message: an empty message does nothing; otherwise the
        model is asked, and the exchange is recorded only if no error came back.
        The reply is returned for display. */
    method SubmitMessage(userMessage: string, post: (string, Payload, nat) -> HttpOutcome)
      returns (reply: Option<AiReply>)
      requires Valid() && ConversationHistory in values
      modifies this
      ensures Valid()
      ensures userMessage == "" ==> reply == None && values == old(values)
      ensures userMessage != "" ==>
        && reply == Some(GetAiResponse(userMessage, old(values[ConversationHistory].turns), post))
        && values == old(values)[ConversationHistory :=
             Turns(HistoryAfterReply(old(values[ConversationHistory].turns), userMessage, reply.value))]
    {
      if userMessage == "" {
        return None;
      }
      var history := values[ConversationHistory].turns;
      var r := GetAiResponse(userMessage, history, post);
      if !Truthy(r.error) {
        history := history + [Turn(User, userMessage)];
        history := history + [Turn(Assistant, r.response.value)];
        values := values[ConversationHistory := Turns(history)];
      }
      reply := Some(r);
    }

    /** Appends a mood to the mood list, creating the list if it is missing. The value
        is not range-checked: the bound 1..10 comes from the slider widget only. */
    method LogMood(mood: int)
      requires Valid()
      modifies this
      ensures Valid()
      ensures values == old(values)[MoodHistory := Moods(MoodsOf(old(values)) + [mood])]
    {
      var moods := MoodsOf(values);
      values := values[MoodHistory := Moods(moods + [mood])];
    }

    /** The mindfulness button: picks an exercise to show and counts one more session. */
    method TryMindfulnessExercise(choice: nat) returns (e: MentalHealth.Exercise)
      requires Valid() && MindfulnessSessions in values
      modifies this
      ensures Valid()
      ensures e in MentalHealth.MindfulnessExercises
      ensures values == old(values)[MindfulnessSessions := Count(old(values[MindfulnessSessions].n) + 1)]
    {
      e := MentalHealth.MindfulnessExercise(choice);
      values := values[MindfulnessSessions := Count(values[MindfulnessSessions].n + 1)];
    }
  }
}
