/** The feedback questionnaire: a button that appears some time after the
    page opens unless feedback was given or dismissed recently, and a panel
    that walks through the questions one at a time. */
module FeedbackButton {
  import opened Outcomes
  import opened JsList

  const Enabled: bool := true
  const DelayMs: nat := 30000
  const CooldownHours: int := 72
  const MsPerHour: int := 3600000

  datatype Question =
    | Rating(id: string, text: string, scale: nat)
    | MultiSelect(id: string, text: string, options: seq<string>)
    | FreeText(id: string, text: string, placeholder: string)

  const Questions: seq<Question> := [
    Rating("satisfaction", "How satisfied are you with your experience?", 5),
    MultiSelect("features", "Which features do you find most valuable?",
      ["Quote Discovery", "AI Transformations", "Text-to-Speech", "Music Search", "Theme Customization"]),
    FreeText("improvements", "What could we improve?", "Share your thoughts...")
  ]

  /** An answer: a score, the options ticked, or a text. */
  datatype Answer = Score(value: int) | Picked(options: seq<string>) | Written(text: string)

  datatype FeedbackState = FeedbackState(
    isVisible: bool,
    isOpen: bool,
    lastPrompt: int,
    current: nat,
    answers: map<string, Answer>)

  /** The state on mount; `lastPrompt` is what browser storage held under
      `lastFeedbackPrompt` (0 when nothing was stored). */
  function Initial(lastPrompt: int): FeedbackState {
    FeedbackState(false, false, lastPrompt, 0, map[])
  }

  /** The question cursor points at a question. */
  predicate Valid(s: FeedbackState) {
    s.current < |Questions|
  }

  /** The effect run when `lastPrompt` changes schedules the button to
      appear `DelayMs` later when feedback is enabled and the cooldown has
      passed. */
  predicate PromptScheduled(lastPrompt: int, now: int) {
    Enabled && now - lastPrompt > CooldownHours * MsPerHour
  }

  /** The timer has fired. */
  function Shown(s: FeedbackState): FeedbackState {
    s.(isVisible := true)
  }

  /** The feedback button opens the panel. */
  function Opened(s: FeedbackState): FeedbackState {
    s.(isOpen := true)
  }

  /** Rating button `i` of the current (rating) question: the score `i + 1`
      is stored and the cursor moves on unless this is the last question. */
  function Rated(s: FeedbackState, i: nat): FeedbackState
    requires Valid(s) && Questions[s.current].Rating? && i < Questions[s.current].scale
  {
    var q := Questions[s.current];
    s.(answers := s.answers[q.id := Score(i + 1)],
       current := if s.current < |Questions| - 1 then s.current + 1 else s.current)
  }

  /** The options ticked so far for a question: `answers[id] || []`. */
  function PickedSoFar(answers: map<string, Answer>, id: string): seq<string> {
    if id in answers && answers[id].Picked? then answers[id].options else []
  }

  function OtherOption(option: string): string -> bool {
    (o: string) => o != option
  }

  /** The options after a checkbox changes: ticking appends the option,
      unticking removes every occurrence of it. */
  function Ticked(options: seq<string>, option: string, checked: bool): seq<string> {
    if checked then options + [option] else Filter(options, OtherOption(option))
  }

  /** A checkbox of the current (multi-select) question changed. */
  function Checked(s: FeedbackState, option: string, checked: bool): FeedbackState
    requires Valid(s)
  {
    var id := Questions[s.current].id;
    s.(answers := s.answers[id := Picked(Ticked(PickedSoFar(s.answers, id), option, checked))])
  }

  /** The text of the current (free-text) question changed. */
  function Typed(s: FeedbackState, text: string): FeedbackState
    requires Valid(s)
  {
    s.(answers := s.answers[Questions[s.current].id := Written(text)])
  }

  /** The "Next" button, shown before the last question. */
  function Advanced(s: FeedbackState): FeedbackState {
    if s.current < |Questions| - 1 then s.(current := s.current + 1) else s
  }

  /** `handleSubmit` at time `now`. */
  function Submitted(s: FeedbackState, now: int): FeedbackState {
    FeedbackState(false, false, now, 0, map[])
  }

  /** The close button at time `now`. */
  function Dismissed(s: FeedbackState, now: int): FeedbackState {
    s.(isOpen := false, lastPrompt := now)
  }

  /** Every step keeps the cursor on a question. */
  lemma StepsKeepValid(s: FeedbackState, i: nat, option: string, checked: bool, text: string, now: int)
    requires Valid(s)
    ensures Valid(Shown(s)) && Valid(Opened(s)) && Valid(Advanced(s))
    ensures Valid(Checked(s, option, checked)) && Valid(Typed(s, text))
    ensures Valid(Submitted(s, now)) && Valid(Dismissed(s, now))
    ensures Questions[s.current].Rating? && i < Questions[s.current].scale ==> Valid(Rated(s, i))
  {
  }

  /** A rating stores a score from 1 to the scale for that question, and
      the cursor moves on exactly when a question follows. */
  lemma RatedSpec(s: FeedbackState, i: nat)
    requires Valid(s) && Questions[s.current].Rating? && i < Questions[s.current].scale
    ensures var r := Rated(s, i);
      var id := Questions[s.current].id;
      id in r.answers && r.answers[id].Score? && 1 <= r.answers[id].value <= Questions[s.current].scale
      && (r.current == s.current + 1 <==> s.current < |Questions| - 1)
      && (r.current == s.current <==> s.current == |Questions| - 1)
      && (forall k :: k != id && k in s.answers ==> k in r.answers && r.answers[k] == s.answers[k])
  {
  }

  /** Ticking appends the option; unticking removes every occurrence of it
      and keeps the other options in order; ticking a new option and
      unticking it again gives the options back. */
  lemma TickedSpec(options: seq<string>, option: string)
    ensures Ticked(options, option, true) == options + [option]
    ensures var r := Ticked(options, option, false);
      option !in r && (forall o :: o != option ==> (o in r <==> o in options)) && IsSubsequence(r, options)
    ensures option !in options ==> Ticked(Ticked(options, option, true), option, false) == options
  {
    FilterSpec(options, OtherOption(option));
    if option !in options {
      FilterKeepsAll(options, OtherOption(option));
      FilterAppend(options, [option], OtherOption(option));
      assert Filter([option], OtherOption(option)) == [];
    }
  }

  /** Submitting forgets the answers, hides the button, returns to the first
      question, and no new prompt is scheduled within the cooldown. */
  lemma SubmitStartsCooldown(s: FeedbackState, now: int, later: int)
    requires now <= later <= now + CooldownHours * MsPerHour
    ensures var r := Submitted(s, now);
      !r.isVisible && !r.isOpen && r.current == 0 && r.answers == map[] && r.lastPrompt == now
      && !PromptScheduled(r.lastPrompt, later)
    ensures PromptScheduled(now, now + CooldownHours * MsPerHour + 1)
  {
  }

  /** Dismissing closes the panel and restarts the cooldown but leaves the
      button and the answers in place. */
  lemma DismissKeepsButton(s: FeedbackState, now: int, later: int)
    requires now <= later <= now + CooldownHours * MsPerHour
    ensures var r := Dismissed(s, now);
      !r.isOpen && r.isVisible == s.isVisible && r.answers == s.answers && r.current == s.current
      && !PromptScheduled(r.lastPrompt, later)
  {
  }

  /** `FeedbackButton`'s state. */
  class Feedback {
    var isVisible: bool
    var isOpen: bool
    var lastPrompt: int
    var currentQuestion: nat
    var answers: map<string, Answer>

    function State(): FeedbackState
      reads this
    {
      FeedbackState(isVisible, isOpen, lastPrompt, currentQuestion, answers)
    }

    constructor (lastPrompt: int)
      ensures State() == Initial(lastPrompt)
    {
      isVisible, isOpen, currentQuestion, answers := false, false, 0, map[];
      this.lastPrompt := lastPrompt;
    }

    /** The effect on `lastPrompt` at time `now`: the delay of the timer it
        sets, if any. Its firing is `OnTimer`. */
    method ScheduleEffect(now: int) returns (timer: Option<nat>)
      ensures timer.Some? <==> PromptScheduled(lastPrompt, now)
      ensures timer.Some? ==> timer.value == DelayMs
    {
      if Enabled && now - lastPrompt > CooldownHours * MsPerHour {
        timer := Some(DelayMs);
      } else {
        timer := None;
      }
    }

    method OnTimer()
      modifies this
      ensures State() == Shown(old(State()))
    {
      isVisible := true;
    }

    method Open()
      modifies this
      ensures State() == Opened(old(State()))
    {
      isOpen := true;
    }

    method Rate(i: nat)
      requires Valid(State()) && Questions[currentQuestion].Rating? && i < Questions[currentQuestion].scale
      modifies this
      ensures State() == Rated(old(State()), i)
    {
      answers := answers[Questions[currentQuestion].id := Score(i + 1)];
      if currentQuestion < |Questions| - 1 {
        currentQuestion := currentQuestion + 1;
      }
    }

    method Check(option: string, checked: bool)
      requires Valid(State())
      modifies this
      ensures State() == Checked(old(State()), option, checked)
    {
      var id := Questions[currentQuestion].id;
      var current := PickedSoFar(answers, id);
      answers := answers[id := Picked(Ticked(current, option, checked))];
    }

    method Type(text: string)
      requires Valid(State())
      modifies this
      ensures State() == Typed(old(State()), text)
    {
      answers := answers[Questions[currentQuestion].id := Written(text)];
    }

    method Next()
      modifies this
      ensures State() == Advanced(old(State()))
    {
      if currentQuestion < |Questions| - 1 {
        currentQuestion := currentQuestion + 1;
      }
    }

    method Submit(now: int)
      modifies this
      ensures State() == Submitted(old(State()), now)
    {
      lastPrompt := now;
      isOpen, isVisible := false, false;
      currentQuestion, answers := 0, map[];
    }

    method Dismiss(now: int)
      modifies this
      ensures State() == Dismissed(old(State()), now)
    {
      isOpen := false;
      lastPrompt := now;
    }
  }
}
