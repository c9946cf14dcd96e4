/** LiveView hooks of the chat screen: the message input that submits its
    form on Enter once the draft is long enough, and the transcript that is
    kept scrolled to its bottom. */
module ChatHooks {

  datatype Option<T> = None | Some(value: T)

  /** Minimum draft length, in UTF-16 code units, for Enter to submit. */
  const SubmitThreshold: nat := 200

  const EnterKey: string := "Enter"

  /** The UTF-16 code units one character takes: two for a character outside
      the Basic Multilingual Plane (a surrogate pair), one otherwise. */
  function CodeUnits(c: char): nat
  {
    if c as int >= 0x1_0000 then 2 else 1
  }

  /** JavaScript's `String.prototype.length`: the number of UTF-16 code units. */
  function Utf16Length(s: string): (n: nat)
    ensures |s| <= n <= 2 * |s|
    ensures (forall i :: 0 <= i < |s| ==> s[i] as int < 0x1_0000) ==> n == |s|
    ensures (forall i :: 0 <= i < |s| ==> s[i] as int >= 0x1_0000) ==> n == 2 * |s|
    decreases |s|
  {
    if s == [] then 0 else CodeUnits(s[0]) + Utf16Length(s[1..])
  }

  /** A synthetic DOM event as built by `new Event(type, options)`. */
  datatype DomEvent = DomEvent(kind: string, bubbles: bool, cancelable: bool)

  /** The event the input dispatches to its form. */
  const SubmitEvent: DomEvent := DomEvent("submit", true, true)

  /** One dispatch to the input's form, together with the draft the form's
      synchronous listeners see while the event is being handled. */
  datatype Dispatch = Dispatch(event: DomEvent, draft: string)

  /** The part of the input element the keydown handler reads and writes:
      its value, the log of events dispatched to its form, and whether the
      element has a form owner at all (`this.el.form` is `null` otherwise). */
  datatype Field = Field(value: string, formLog: seq<Dispatch>, hasForm: bool)

  /** What one keydown leaves behind: the element, whether the handler called
      `preventDefault` on the key event, and whether it ended by throwing. */
  datatype KeyOutcome = KeyOutcome(field: Field, defaultPrevented: bool, threw: bool)

  /** The handler's guard. A submitting draft has at least 100 characters,
      and for text in the Basic Multilingual Plane exactly 200 characters are
      needed. */
  predicate Submits(key: string, value: string): (b: bool)
    ensures b ==> key == "Enter" && |value| >= 100
    ensures (forall i :: 0 <= i < |value| ==> value[i] as int < 0x1_0000) ==>
              (b <==> key == "Enter" && |value| >= 200)
  {
    key == EnterKey && Utf16Length(value) >= SubmitThreshold
  }

  /** The `onkeydown` handler installed by `mounted`. `formWrite` is what the
      form's listeners, running synchronously inside `dispatchEvent`, write to
      the field's value, if anything. Without a form owner, `dispatchEvent` is
      called on `null`: the handler throws a TypeError before the clear. */
  function OnKeyDown(f: Field, key: string, formWrite: Option<string>): (r: KeyOutcome)
    ensures !r.defaultPrevented
    ensures r.field.hasForm == f.hasForm
    ensures r.threw <==> key == "Enter" && Utf16Length(f.value) >= 200 && !f.hasForm
    ensures |r.field.formLog| ==
              |f.formLog| + (if key == "Enter" && Utf16Length(f.value) >= 200 && f.hasForm then 1 else 0)
    ensures r.field.formLog[..|f.formLog|] == f.formLog
    ensures |r.field.formLog| > |f.formLog| ==>
              r.field.formLog[|f.formLog|].event == DomEvent("submit", true, true) &&
              r.field.formLog[|f.formLog|].draft == f.value &&
              r.field.value == ""
    ensures |r.field.formLog| == |f.formLog| ==> r.field.value == f.value
  {
    if !Submits(key, f.value) then
      KeyOutcome(f, false, false)
    else if !f.hasForm then
      KeyOutcome(f, false, true)
    else
      var afterDispatch := Field(if formWrite.Some? then formWrite.value else f.value,
                                 f.formLog + [Dispatch(SubmitEvent, f.value)], f.hasForm);
      KeyOutcome(afterDispatch.(value := ""), false, false)
  }

  /** Whatever the form's listeners write to the field while the submit event
      is dispatched, the handler's effect is the same: the clear comes after
      the dispatch and overrides it. */
  lemma ClearIgnoresForm(f: Field, key: string, w1: Option<string>, w2: Option<string>)
    ensures OnKeyDown(f, key, w1) == OnKeyDown(f, key, w2)
  {
  }

  /** The threshold is inclusive: a draft of 199 code units does not submit,
      one of 200 does. The comment above the guard speaks of "not greater than
      200", as if 200 itself did not submit; the code's `>= 200` is what is
      modelled. */
  lemma ThresholdBoundary(f: Field, formWrite: Option<string>)
    ensures Utf16Length(f.value) == 199 ==> OnKeyDown(f, "Enter", formWrite).field == f
    ensures Utf16Length(f.value) == 200 && f.hasForm ==>
              OnKeyDown(f, "Enter", formWrite).field ==
                Field("", f.formLog + [Dispatch(SubmitEvent, f.value)], true)
  {
  }

  /** A draft of 100 characters outside the Basic Multilingual Plane (emoji,
      say) is 200 code units long, so Enter submits it and clears the field. */
  lemma AstralDraftSubmits(f: Field, formWrite: Option<string>)
    requires |f.value| == 100 && f.hasForm
    requires forall i :: 0 <= i < |f.value| ==> f.value[i] as int >= 0x1_0000
    ensures OnKeyDown(f, "Enter", formWrite).field ==
              Field("", f.formLog + [Dispatch(SubmitEvent, f.value)], true)
  {
  }

  /** An Enter pressed right after a submitting Enter does not submit again. */
  lemma NoImmediateResubmit(f: Field, w1: Option<string>, w2: Option<string>)
    requires Submits("Enter", f.value) && f.hasForm
    ensures var once := OnKeyDown(f, "Enter", w1).field;
            OnKeyDown(once, "Enter", w2).field == once
  {
  }

  /** What can happen to the input between handler runs: the user edits the
      draft (the browser's own text entry, left to run since the handler never
      prevents it), or a key goes down and the handler runs. */
  datatype Action = Edit(newValue: string) | Key(key: string, formWrite: Option<string>)

  function Apply(f: Field, a: Action): Field
  {
    match a
    case Edit(v) => f.(value := v)
    case Key(k, w) => OnKeyDown(f, k, w).field
  }

  function Run(f: Field, actions: seq<Action>): Field
    decreases |actions|
  {
    if actions == [] then f else Run(Apply(f, actions[0]), actions[1..])
  }

  /** 1 when the draft is long enough to be submitted, else 0. */
  function Ready(value: string): nat
  {
    if Utf16Length(value) >= SubmitThreshold then 1 else 0
  }

  /** The number of edits that leave a draft long enough to be submitted. */
  function LongEdits(actions: seq<Action>): nat
    decreases |actions|
  {
    if actions == [] then 0
    else (if actions[0].Edit? then Ready(actions[0].newValue) else 0) + LongEdits(actions[1..])
  }

  /** The form log only grows, and everything added to it is a bubbling,
      cancelable `submit` event carrying a draft of at least 200 code units. */
  lemma {:induction false} RunOnlySubmits(f: Field, actions: seq<Action>)
    ensures |Run(f, actions).formLog| >= |f.formLog|
    ensures Run(f, actions).formLog[..|f.formLog|] == f.formLog
    ensures forall i :: |f.formLog| <= i < |Run(f, actions).formLog| ==>
              Run(f, actions).formLog[i].event == SubmitEvent &&
              Utf16Length(Run(f, actions).formLog[i].draft) >= SubmitThreshold
    decreases |actions|
  {
    if actions != [] {
      var g := Apply(f, actions[0]);
      RunOnlySubmits(g, actions[1..]);
      var h := Run(g, actions[1..]);
      assert h.formLog[..|g.formLog|] == g.formLog;
      assert h.formLog[..|f.formLog|] == h.formLog[..|g.formLog|][..|f.formLog|];
    }
  }

  /** Each long draft is submitted at most once: over any session, the
      submissions plus the draft still waiting never exceed the long drafts
      the user produced (counting the one the session started with). */
  lemma {:induction false} EachDraftSubmittedOnce(f: Field, actions: seq<Action>)
    ensures |Run(f, actions).formLog| - |f.formLog| + Ready(Run(f, actions).value)
            <= LongEdits(actions) + Ready(f.value)
    decreases |actions|
  {
    if actions != [] {
      var g := Apply(f, actions[0]);
      EachDraftSubmittedOnce(g, actions[1..]);
      RunOnlySubmits(g, actions[1..]);
    }
  }

  /** The message input hook (`Hooks.ChatInput`). */
  class ChatInput {
    var value: string
    var focused: bool
    /** Whether `mounted` has installed the `onkeydown` handler. */
    var handlerInstalled: bool
    var formLog: seq<Dispatch>
    /** Whether the element has a form owner (`this.el.form` is not `null`). */
    const hasForm: bool

    function State(): Field
      reads this
    {
      Field(value, formLog, hasForm)
    }

    constructor (initialValue: string, hasForm: bool)
      ensures State() == Field(initialValue, [], hasForm)
      ensures !focused && !handlerInstalled
    {
      value := initialValue;
      formLog := [];
      this.hasForm := hasForm;
      focused := false;
      handlerInstalled := false;
    }

    /** Focuses the element and installs the keydown handler. */
    method Mounted()
      modifies this`focused, this`handlerInstalled
      ensures focused && handlerInstalled
    {
      focused := true;
      handlerInstalled := true;
    }

    /** A keydown on the element: runs the handler when one is installed. */
    method KeyDown(key: string, formWrite: Option<string>) returns (defaultPrevented: bool, threw: bool)
      modifies this`value, this`formLog
      ensures KeyOutcome(State(), defaultPrevented, threw) ==
                if handlerInstalled then OnKeyDown(old(State()), key, formWrite)
                else KeyOutcome(old(State()), false, false)
    {
      defaultPrevented, threw := false, false;
      if handlerInstalled && Submits(key, value) {
        if !hasForm {
          // dispatchEvent on a null form throws; the clear is never reached
          threw := true;
        } else {
          formLog := formLog + [Dispatch(SubmitEvent, value)];
          if formWrite.Some? {
            value := formWrite.value;
          }
          value := "";
        }
      }
    }
  }

  /** The transcript hook (`Hooks.ChatScreen`). */
  class ChatScreen {
    var scrollTop: int
    var scrollHeight: int

    constructor (scrollTop: int, scrollHeight: int)
      ensures this.scrollTop == scrollTop && this.scrollHeight == scrollHeight
    {
      this.scrollTop := scrollTop;
      this.scrollHeight := scrollHeight;
    }

    method Mounted()
      modifies this`scrollTop
      ensures scrollTop == scrollHeight
    {
      scrollTop := scrollHeight;
    }

    method Updated()
      modifies this`scrollTop
      ensures scrollTop == scrollHeight
    {
      scrollTop := scrollHeight;
    }
  }
}
