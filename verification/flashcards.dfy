/** The flashcard study session and the flashcard editor. A session walks
    through a (possibly shuffled) deck one card at a time; the card can be
    flipped, answered by button, drag or key, and the results are reported
    when the user moves past the last card. Each handler is one step of a
    pure transition function; the `FlashcardSession` class holds the state
    the component keeps. */
module Flashcards {
  import opened Util
  import opened Types

  // ----- Study session -------------------------------------------------------

  /** What `onComplete` receives. */
  datatype StudyResults = StudyResults(totalCards: int, correctCards: int, timeSpent: int, cardsStudied: seq<Flashcard>)

  /** The session state: the deck in study order, the position, the two
      display flags and the results gathered so far. */
  datatype Session = Session(cards: seq<Flashcard>, currentIndex: int, isFlipped: bool, showAnswer: bool, results: StudyResults)

  /** What a handler tells the outside: `onUpdateCard(id, isCorrect)`,
      `onComplete(results)`, or nothing. */
  datatype SessionEvent = NoEvent | CardAnswered(cardId: string, isCorrect: bool) | StudyComplete(results: StudyResults)

  datatype Step = Step(session: Session, event: SessionEvent)

  /** The keys the shortcut handler reacts to; every other key is `OtherKey`. */
  datatype Key = Space | ArrowLeft | ArrowRight | Digit1 | Digit2 | OtherKey

  predicate HasCurrentCard(s: Session) {
    0 <= s.currentIndex < |s.cards|
  }

  predicate IsLastCard(s: Session) {
    s.currentIndex == |s.cards| - 1
  }

  /** What every reachable session satisfies: the position is never negative
      and stays on a card when there are cards, and no more answers are
      correct than answers were given. */
  predicate SessionValid(s: Session) {
    && s.currentIndex >= 0
    && (|s.cards| > 0 ==> s.currentIndex < |s.cards|)
    && 0 <= s.results.correctCards <= |s.results.cardsStudied|
  }

  /** A fresh session over `cards`. */
  function StartSession(cards: seq<Flashcard>): (s: Session)
    ensures SessionValid(s) && s.cards == cards
    ensures s.currentIndex == 0 && !s.isFlipped && !s.showAnswer
    ensures s.results.totalCards == |cards| && s.results.correctCards == 0 && s.results.cardsStudied == []
  {
    Session(cards, 0, false, false, StudyResults(|cards|, 0, 0, []))
  }

  /** `nextCard`, `elapsedSeconds` after the session started: on the last card
      the results are reported and nothing changes; otherwise the next card
      is shown face down. */
  function Next(s: Session, elapsedSeconds: int): (r: Step)
    ensures IsLastCard(s) ==> r.session == s && r.event == StudyComplete(s.results.(timeSpent := elapsedSeconds))
    ensures !IsLastCard(s) ==> r.event == NoEvent
    ensures !IsLastCard(s) ==> r.session.currentIndex == s.currentIndex + 1 && !r.session.isFlipped && !r.session.showAnswer
    ensures r.session.cards == s.cards && r.session.results == s.results
    ensures SessionValid(s) ==> SessionValid(r.session)
  {
    if IsLastCard(s) then Step(s, StudyComplete(s.results.(timeSpent := elapsedSeconds)))
    else Step(s.(currentIndex := s.currentIndex + 1, isFlipped := false, showAnswer := false), NoEvent)
  }

  /** `prevCard`: nothing on the first card, otherwise the previous card face down. */
  function Prev(s: Session): (r: Session)
    ensures s.currentIndex <= 0 ==> r == s
    ensures s.currentIndex > 0 ==> r.currentIndex == s.currentIndex - 1 && !r.isFlipped && !r.showAnswer
    ensures r.cards == s.cards && r.results == s.results
    ensures SessionValid(s) ==> SessionValid(r)
  {
    if s.currentIndex > 0 then s.(currentIndex := s.currentIndex - 1, isFlipped := false, showAnswer := false) else s
  }

  /** `flipCard`: turns the card over; the answer, once shown, stays shown. */
  function Flip(s: Session): (r: Session)
    ensures r.isFlipped == !s.isFlipped && r.showAnswer
    ensures r.(isFlipped := s.isFlipped, showAnswer := s.showAnswer) == s
    ensures SessionValid(s) ==> SessionValid(r)
  {
    s.(isFlipped := !s.isFlipped, showAnswer := true)
  }

  /** `handleAnswer(isCorrect)`: with a current card, that card is added to
      the studied cards, counted as correct iff the answer is, and reported;
      without one nothing happens. The position does not move. */
  function Answer(s: Session, isCorrect: bool): (r: Step)
    ensures !HasCurrentCard(s) ==> r == Step(s, NoEvent)
    ensures HasCurrentCard(s) ==> r.event == CardAnswered(s.cards[s.currentIndex].id, isCorrect)
    ensures HasCurrentCard(s) ==> r.session.results.cardsStudied == s.results.cardsStudied + [s.cards[s.currentIndex]]
    ensures HasCurrentCard(s) ==> r.session.results.correctCards == s.results.correctCards + (if isCorrect then 1 else 0)
    ensures r.session.(results := s.results) == s
    ensures r.session.results.totalCards == s.results.totalCards && r.session.results.timeSpent == s.results.timeSpent
    ensures SessionValid(s) ==> SessionValid(r.session)
  {
    if HasCurrentCard(s) then
      var card := s.cards[s.currentIndex];
      var results := s.results.(correctCards := s.results.correctCards + (if isCorrect then 1 else 0),
                                cardsStudied := s.results.cardsStudied + [card]);
      Step(s.(results := results), CardAnswered(card.id, isCorrect))
    else Step(s, NoEvent)
  }

  const DragThreshold: int := 100

  /** `handleDragEnd` with horizontal offset `offsetX`: a swipe right past the
      threshold is a correct answer, a swipe left past it a wrong one, and
      anything shorter records nothing. */
  function DragEnd(s: Session, offsetX: int): (r: Step)
    ensures offsetX > DragThreshold ==> r == Answer(s, true)
    ensures offsetX < -DragThreshold ==> r == Answer(s, false)
    ensures -DragThreshold <= offsetX <= DragThreshold ==> r == Step(s, NoEvent)
  {
    if offsetX > DragThreshold then Answer(s, true)
    else if offsetX < -DragThreshold then Answer(s, false)
    else Step(s, NoEvent)
  }

  /** The keyboard shortcuts: space flips, the arrows move, and '1' (hard) and
      '2' (easy) answer only once the answer has been shown. */
  function KeyPress(s: Session, key: Key, elapsedSeconds: int): (r: Step)
    ensures (key == Digit1 || key == Digit2) && !s.showAnswer ==> r == Step(s, NoEvent)
    ensures key == Digit1 && s.showAnswer ==> r == Answer(s, false)
    ensures key == Digit2 && s.showAnswer ==> r == Answer(s, true)
    ensures key == Space ==> r == Step(Flip(s), NoEvent)
    ensures key == ArrowLeft ==> r == Step(Prev(s), NoEvent)
    ensures key == ArrowRight ==> r == Next(s, elapsedSeconds)
    ensures key == OtherKey ==> r == Step(s, NoEvent)
    ensures SessionValid(s) ==> SessionValid(r.session)
  {
    match key
    case Space => Step(Flip(s), NoEvent)
    case ArrowLeft => Step(Prev(s), NoEvent)
    case ArrowRight => Next(s, elapsedSeconds)
    case Digit1 => if s.showAnswer then Answer(s, false) else Step(s, NoEvent)
    case Digit2 => if s.showAnswer then Answer(s, true) else Step(s, NoEvent)
    case OtherKey => Step(s, NoEvent)
  }

  /** `nextCard` pressed `k` times, ignoring what it reports. */
  function Advance(s: Session, k: nat): Session
    decreases k
  {
    if k == 0 then s else Advance(Next(s, 0).session, k - 1)
  }

  /** `k` presses of "next" move `k` cards on, face down, as long as there
      are cards left; the press on the last card reports the results. */
  lemma {:induction false} WalkThroughDeck(s: Session, k: nat, elapsedSeconds: int)
    requires SessionValid(s) && s.currentIndex + k < |s.cards|
    ensures Advance(s, k).currentIndex == s.currentIndex + k
    ensures Advance(s, k).results == s.results && Advance(s, k).cards == s.cards
    ensures k > 0 ==> !Advance(s, k).isFlipped && !Advance(s, k).showAnswer
    ensures s.currentIndex + k == |s.cards| - 1 ==> Next(Advance(s, k), elapsedSeconds).event == StudyComplete(s.results.(timeSpent := elapsedSeconds))
    decreases k
  {
    if k > 0 {
      var s1 := Next(s, 0).session;
      assert !IsLastCard(s);
      WalkThroughDeck(s1, k - 1, elapsedSeconds);
    }
  }

  /** A run of answers, given in order. */
  function AnswerAll(s: Session, answers: seq<bool>): Session
    decreases |answers|
  {
    if answers == [] then s else Answer(AnswerAll(s, answers[..|answers| - 1]), answers[|answers| - 1]).session
  }

  predicate IsCorrect(answer: bool) {
    answer
  }

  /** Answering while a card is shown: every answer adds one studied card
      and exactly the correct answers are counted. */
  lemma {:induction false} AnswersAreTallied(s: Session, answers: seq<bool>)
    requires HasCurrentCard(s)
    ensures AnswerAll(s, answers).currentIndex == s.currentIndex && AnswerAll(s, answers).cards == s.cards
    ensures |AnswerAll(s, answers).results.cardsStudied| == |s.results.cardsStudied| + |answers|
    ensures AnswerAll(s, answers).results.correctCards == s.results.correctCards + Count(answers, IsCorrect)
    decreases |answers|
  {
    if answers != [] {
      var front := answers[..|answers| - 1];
      var last := answers[|answers| - 1];
      AnswersAreTallied(s, front);
      assert answers == front + [last];
      CountAppend(front, [last], IsCorrect);
      assert Count([last], IsCorrect) == if last then 1 else 0;
    }
  }

  /** A drag that stays within the threshold changes nothing. */
  lemma ShortDragIsIgnored(s: Session, offsetX: int)
    requires -DragThreshold <= offsetX <= DragThreshold
    ensures DragEnd(s, offsetX).session == s && DragEnd(s, offsetX).event == NoEvent
  {
  }

  // ----- The keyboard handler as registered ---------------------------------

  /** The session the keyboard handler sees. The handler is registered again
      only when `showAnswer` or `currentIndex` changes, so between two such
      changes it keeps reading the session of the render that registered it. */
  function KeyView(view: Session, before: Session, after: Session): (v: Session)
    ensures after.showAnswer != before.showAnswer || after.currentIndex != before.currentIndex ==> v == after
    ensures after.showAnswer == before.showAnswer && after.currentIndex == before.currentIndex ==> v == view
  {
    if after.showAnswer != before.showAnswer || after.currentIndex != before.currentIndex then after else view
  }

  /** `handleAnswer` run by the registered handler: the card comes from the
      captured session, the tally is applied to the live one. */
  function AnswerAsWritten(view: Session, s: Session, isCorrect: bool): Step {
    if HasCurrentCard(view) then
      var card := view.cards[view.currentIndex];
      Step(s.(results := s.results.(correctCards := s.results.correctCards + (if isCorrect then 1 else 0),
                                    cardsStudied := s.results.cardsStudied + [card])),
           CardAnswered(card.id, isCorrect))
    else Step(s, NoEvent)
  }

  /** The keyboard shortcuts as written: every value the handler reads
      (`isFlipped`, `showAnswer`, the card, `isLastCard`, `studyResults`) comes
      from the captured session `view`; the functional updates of the index
      and of the tally apply to the live session `s`. When the handler is
      fresh it behaves like `KeyPress`. */
  function KeyPressAsWritten(view: Session, s: Session, key: Key, elapsedSeconds: int): (r: Step)
    ensures view == s ==> r == KeyPress(s, key, elapsedSeconds)
    ensures key == Space ==> r.session.isFlipped == !view.isFlipped
    ensures key == ArrowRight && IsLastCard(view) ==>
              r.session == s && r.event == StudyComplete(view.results.(timeSpent := elapsedSeconds))
  {
    match key
    case Space => Step(s.(isFlipped := !view.isFlipped, showAnswer := if !view.showAnswer then true else s.showAnswer), NoEvent)
    case ArrowLeft =>
      if view.currentIndex > 0 then Step(s.(currentIndex := s.currentIndex - 1, isFlipped := false, showAnswer := false), NoEvent)
      else Step(s, NoEvent)
    case ArrowRight =>
      if IsLastCard(view) then Step(s, StudyComplete(view.results.(timeSpent := elapsedSeconds)))
      else Step(s.(currentIndex := s.currentIndex + 1, isFlipped := false, showAnswer := false), NoEvent)
    case Digit1 => if view.showAnswer then AnswerAsWritten(view, s, false) else Step(s, NoEvent)
    case Digit2 => if view.showAnswer then AnswerAsWritten(view, s, true) else Step(s, NoEvent)
    case OtherKey => Step(s, NoEvent)
  }

  /** Space pressed three times on a face-down card: the first press shows the
      answer and registers a new handler, which then reads the same
      `isFlipped` twice, so the card ends face down. The intended shortcut
      ends face up. */
  lemma ThirdSpaceLeavesCardDown(s: Session)
    requires !s.isFlipped && !s.showAnswer
    ensures var s1 := KeyPressAsWritten(s, s, Space, 0).session;
            var v1 := KeyView(s, s, s1);
            var s2 := KeyPressAsWritten(v1, s1, Space, 0).session;
            var v2 := KeyView(v1, s1, s2);
            var s3 := KeyPressAsWritten(v2, s2, Space, 0).session;
            s1.isFlipped && !s2.isFlipped && !s3.isFlipped
    ensures KeyPress(KeyPress(KeyPress(s, Space, 0).session, Space, 0).session, Space, 0).session.isFlipped
  {
  }

  /** On the last card with the answer shown, '2' then the right arrow: the
      answer is tallied, but the report is built from the captured results
      and leaves it out. The intended shortcut reports it. */
  lemma LastAnswerMissingFromReport(s: Session, t: int)
    requires HasCurrentCard(s) && IsLastCard(s) && s.showAnswer
    ensures var s1 := KeyPressAsWritten(s, s, Digit2, t).session;
            var v1 := KeyView(s, s, s1);
            && s1.results.cardsStudied == s.results.cardsStudied + [s.cards[s.currentIndex]]
            && KeyPressAsWritten(v1, s1, ArrowRight, t).event == StudyComplete(s.results.(timeSpent := t))
            && KeyPress(s1, ArrowRight, t).event == StudyComplete(s1.results.(timeSpent := t))
  {
  }

  /** The study component. `deck` is the `flashcards` prop; `cards` is the
      order being studied, which a shuffle replaces by a permutation of the deck. */
  class FlashcardSession {
    const deck: seq<Flashcard>
    const startTime: int
    var cards: seq<Flashcard>
    var currentIndex: int
    var isFlipped: bool
    var showAnswer: bool
    var results: StudyResults

    function State(): Session
      reads this
    {
      Session(cards, currentIndex, isFlipped, showAnswer, results)
    }

    predicate Valid()
      reads this
    {
      SessionValid(State()) && multiset(cards) == multiset(deck) && results.totalCards == |deck|
    }

    constructor (flashcards: seq<Flashcard>, now: int)
      ensures deck == flashcards && startTime == now
      ensures State() == StartSession(flashcards) && Valid()
    {
      deck := flashcards;
      startTime := now;
      cards := flashcards;
      currentIndex := 0;
      isFlipped := false;
      showAnswer := false;
      results := StudyResults(|flashcards|, 0, 0, []);
    }

    /** `shuffleCards`, with the random order given as `shuffled`: back to the
        first card face down; the results so far are kept. */
    method ShuffleCards(shuffled: seq<Flashcard>)
      requires multiset(shuffled) == multiset(deck)
      modifies this
      ensures State() == old(State()).(cards := shuffled, currentIndex := 0, isFlipped := false, showAnswer := false)
      ensures old(Valid()) ==> Valid()
    {
      cards := shuffled;
      currentIndex := 0;
      isFlipped := false;
      showAnswer := false;
    }

    /** `nextCard` at time `now` (milliseconds); the reported time is in whole seconds. */
    method NextCard(now: int) returns (event: SessionEvent)
      modifies this
      ensures Step(State(), event) == Next(old(State()), (now - startTime) / 1000)
      ensures old(Valid()) ==> Valid()
    {
      if currentIndex == |cards| - 1 {
        event := StudyComplete(results.(timeSpent := (now - startTime) / 1000));
      } else {
        currentIndex := currentIndex + 1;
        isFlipped := false;
        showAnswer := false;
        event := NoEvent;
      }
    }

    method PrevCard()
      modifies this
      ensures State() == Prev(old(State()))
      ensures old(Valid()) ==> Valid()
    {
      if currentIndex > 0 {
        currentIndex := currentIndex - 1;
        isFlipped := false;
        showAnswer := false;
      }
    }

    method FlipCard()
      modifies this
      ensures State() == Flip(old(State()))
      ensures old(Valid()) ==> Valid()
    {
      isFlipped := !isFlipped;
      if !showAnswer {
        showAnswer := true;
      }
    }

    /** `handleAnswer(isCorrect)`; the delayed `nextCard` of auto-advance is a
        separate later call. */
    method HandleAnswer(isCorrect: bool) returns (event: SessionEvent)
      modifies this
      ensures Step(State(), event) == Answer(old(State()), isCorrect)
      ensures old(Valid()) ==> Valid()
    {
      if 0 <= currentIndex < |cards| {
        var card := cards[currentIndex];
        event := CardAnswered(card.id, isCorrect);
        results := results.(correctCards := results.correctCards + (if isCorrect then 1 else 0),
                            cardsStudied := results.cardsStudied + [card]);
      } else {
        event := NoEvent;
      }
    }

    method HandleDragEnd(offsetX: int) returns (event: SessionEvent)
      modifies this
      ensures Step(State(), event) == DragEnd(old(State()), offsetX)
      ensures old(Valid()) ==> Valid()
    {
      if offsetX > DragThreshold {
        event := HandleAnswer(true);
      } else if offsetX < -DragThreshold {
        event := HandleAnswer(false);
      } else {
        event := NoEvent;
      }
    }

    method HandleKeyPress(key: Key, now: int) returns (event: SessionEvent)
      modifies this
      ensures Step(State(), event) == KeyPress(old(State()), key, (now - startTime) / 1000)
      ensures old(Valid()) ==> Valid()
    {
      match key {
        case Space =>
          FlipCard();
          event := NoEvent;
        case ArrowLeft =>
          PrevCard();
          event := NoEvent;
        case ArrowRight =>
          event := NextCard(now);
        case Digit1 =>
          if showAnswer {
            event := HandleAnswer(false);
          } else {
            event := NoEvent;
          }
        case Digit2 =>
          if showAnswer {
            event := HandleAnswer(true);
          } else {
            event := NoEvent;
          }
        case OtherKey =>
          event := NoEvent;
      }
    }
  }

  // ----- Card editor ---------------------------------------------------------

  /** The editor's form fields. */
  datatype CardForm = CardForm(front: string, back: string, category: string, difficulty: Difficulty, tags: seq<string>)

  /** What `onSave` receives: a card without its id. */
  datatype CardDraft = CardDraft(
    front: string, back: string, category: string, difficulty: Difficulty,
    tags: seq<string>, correctCount: int, totalCount: int)

  /** The form's starting values: the edited card's fields, or empty ones
      and medium difficulty for a new card. */
  function InitialForm(card: Option<Flashcard>): (f: CardForm)
    ensures card.None? ==> f == CardForm("", "", "", Medium, [])
    ensures card.Some? ==> f.front == card.value.front && f.back == card.value.back && f.tags == card.value.tags
    ensures card.Some? ==> f.difficulty == card.value.difficulty && f.category == card.value.category
  {
    match card
    case None => CardForm("", "", "", Medium, [])
    case Some(c) => CardForm(c.front, c.back, c.category, c.difficulty, c.tags)
  }

  /** `handleSubmit`: saves only when front and back are not blank; the
      texts are saved as typed and the edited card's counts are kept (0 for
      a new card). */
  function SubmitCard(form: CardForm, card: Option<Flashcard>): (r: Option<CardDraft>)
    ensures r.Some? <==> Trim(form.front) != [] && Trim(form.back) != []
    ensures r.Some? ==> r.value.front == form.front && r.value.back == form.back && r.value.category == form.category
    ensures r.Some? ==> r.value.difficulty == form.difficulty && r.value.tags == form.tags
    ensures r.Some? ==> r.value.correctCount == (if card.Some? then card.value.correctCount else 0)
    ensures r.Some? ==> r.value.totalCount == (if card.Some? then card.value.totalCount else 0)
  {
    if Trim(form.front) != [] && Trim(form.back) != [] then
      Some(CardDraft(form.front, form.back, form.category, form.difficulty, form.tags,
                     if card.Some? then card.value.correctCount else 0,
                     if card.Some? then card.value.totalCount else 0))
    else None
  }

  /** The tag list and the tag input box. */
  datatype TagEditor = TagEditor(tags: seq<string>, tagInput: string)

  /** `addTag`: the trimmed input is appended and the box cleared when it is
      not blank and not already a tag; otherwise nothing changes. */
  function AddTag(e: TagEditor): (r: TagEditor)
    ensures Trim(e.tagInput) != [] && Trim(e.tagInput) !in e.tags ==> r == TagEditor(e.tags + [Trim(e.tagInput)], "")
    ensures Trim(e.tagInput) == [] || Trim(e.tagInput) in e.tags ==> r == e
    ensures NoDuplicates(e.tags) ==> NoDuplicates(r.tags)
    ensures forall t :: t in r.tags ==> t in e.tags || t == Trim(e.tagInput)
  {
    var tag := Trim(e.tagInput);
    if tag != [] && tag !in e.tags then TagEditor(e.tags + [tag], "") else e
  }

  /** `removeTag(tag)`: drops every copy of `tag` and keeps the others in order. */
  function RemoveTag(tags: seq<string>, tag: string): (r: seq<string>)
    ensures tag !in r
    ensures forall t :: t in r <==> t in tags && t != tag
    ensures NoDuplicates(tags) ==> NoDuplicates(r)
  {
    var keep := (t: string) => t != tag;
    if NoDuplicates(tags) then
      FilterKeepsNoDuplicates(tags, keep);
      Filter(tags, keep)
    else Filter(tags, keep)
  }

  /** Removing a tag just added gives back the tag list as it was. */
  lemma {:induction false} RemoveUndoesAdd(e: TagEditor)
    requires Trim(e.tagInput) != [] && Trim(e.tagInput) !in e.tags
    ensures RemoveTag(AddTag(e).tags, Trim(e.tagInput)) == e.tags
  {
    var tag := Trim(e.tagInput);
    var keep := (t: string) => t != tag;
    FilterAppend(e.tags, [tag], keep);
    FilterAll(e.tags, keep);
    assert Filter([tag], keep) == [];
  }
}
