/**
 * The game session: one mutable record holding the resources (gems and
 * gpa), the token's position and location, the deck, the card in play,
 * the panel phase and the lifecycle state, with the actions that move the
 * token, draw and resolve cards, and settle the final exam.
 */
module GameStore {
  import opened Wrappers
  import opened Cards
  import Board
  import JsBuiltins

  /** The phase of the side panel. No action of the store ever selects `ActionPhase`. */
  datatype Panel = MovePhase | EffectsPhase | ActionPhase | ProbabilityPhase | ChoicePhase

  datatype Lifecycle = Idle | Playing | GameOver

  datatype ExamResult = Pass | Fail

  /** The starting profile the spawn picker hands to a new session. */
  datatype SpawnConfig = SpawnConfig(neighborhood: Neighborhood, initialGems: nat)

  /** The two resources a card changes. */
  datatype Resources = Resources(gems: int, gpa: real)

  /** The whole state of a session, as a value. */
  datatype Session = Session(gems: int, gpa: real, position: int, deck: seq<Card>,
                             currentCard: Option<Card>, location: Location,
                             panel: Panel, state: Lifecycle)

  /** What every session keeps: no negative resource, a position on the board, distinct card ids. */
  ghost predicate ValidSession(s: Session)
  {
    s.gems >= 0 && s.gpa >= 0.0 && 0 <= s.position < Board.BOARD_SIZE && DistinctIds(s.deck)
  }

  /** A fresh session for a spawn profile: idle, gpa 2, the full deck, at the neighborhood's starting tile. */
  function InitGameState(spawn: SpawnConfig): (s: Session)
    ensures s.state == Idle && s.gpa == 2.0 && s.panel == MovePhase && s.currentCard == None
    ensures s.deck == CreateDeck() && |s.deck| == 33
    ensures s.location == Hood(spawn.neighborhood)
    ensures s.position == Board.GetPositionFromNeighborhood(spawn.neighborhood)
    ensures s.gems == spawn.initialGems
    ensures ValidSession(s)
  {
    CatalogIdsDistinct();
    Session(spawn.initialGems, 2.0, Board.GetPositionFromNeighborhood(spawn.neighborhood),
            CreateDeck(), None, Hood(spawn.neighborhood), MovePhase, Idle)
  }

  /** `Math.max(0, x)`: the floor both resources are clamped to. */
  function MaxZero(x: int): int { if x < 0 then 0 else x }
  function MaxZeroReal(x: real): real { if x < 0.0 then 0.0 else x }

  /** One step of `applyEffects`: the effect's delta, clamped at zero, on the resource it names. */
  function ApplyEffect(r: Resources, effect: BaseEffect): Resources
  {
    var delta := ApplyBaseEffect(effect);
    var gems := if delta.gems.Some? then MaxZero(r.gems + delta.gems.value) else r.gems;
    var gpa := if delta.gpa.Some? then MaxZeroReal(r.gpa + delta.gpa.value) else r.gpa;
    Resources(gems, gpa)
  }

  /** The effects applied one after another, in list order. */
  function ApplyAll(r: Resources, effects: seq<BaseEffect>): Resources
    decreases effects
  {
    if effects == [] then r else ApplyAll(ApplyEffect(r, effects[0]), effects[1..])
  }

  /** Applying a concatenation applies the first part, then the second. */
  lemma {:induction false} ApplyAllAppend(r: Resources, a: seq<BaseEffect>, b: seq<BaseEffect>)
    ensures ApplyAll(r, a + b) == ApplyAll(ApplyAll(r, a), b)
    decreases a
  {
    if a != [] {
      assert (a + b)[1..] == a[1..] + b;
      ApplyAllAppend(ApplyEffect(r, a[0]), a[1..], b);
    } else {
      assert a + b == b;
    }
  }

  /** Resources that start non-negative stay non-negative, whatever the effects. */
  lemma {:induction false} ApplyAllNonNegative(r: Resources, effects: seq<BaseEffect>)
    requires r.gems >= 0 && r.gpa >= 0.0
    ensures ApplyAll(r, effects).gems >= 0 && ApplyAll(r, effects).gpa >= 0.0
    decreases effects
  {
    if effects != [] {
      ApplyAllNonNegative(ApplyEffect(r, effects[0]), effects[1..]);
    }
  }

  /** The sum of the gems magnitudes of a list of effects. */
  function GemsTotal(effects: seq<BaseEffect>): int
  {
    if effects == [] then 0
    else (if effects[0].kind == Gems then effects[0].magnitude else 0) + GemsTotal(effects[1..])
  }

  /**
   * Clamping only ever adds: the gems end at least at the start plus the sum
   * of the gems magnitudes, and exactly there when no magnitude is negative.
   */
  lemma {:induction false} ApplyAllGemsBound(r: Resources, effects: seq<BaseEffect>)
    ensures ApplyAll(r, effects).gems >= r.gems + GemsTotal(effects)
    ensures r.gems >= 0 && (forall i :: 0 <= i < |effects| ==> effects[i].magnitude >= 0) ==>
              ApplyAll(r, effects).gems == r.gems + GemsTotal(effects)
    decreases effects
  {
    if effects != [] {
      ApplyAllGemsBound(ApplyEffect(r, effects[0]), effects[1..]);
    }
  }

  /**
   * The clamp is applied after every single effect, not to the total: with no
   * gems, losing one and then gaining one leaves one gem, not none.
   */
  lemma ClampsPerStep()
    ensures ApplyAll(Resources(0, 2.0), [GemsEffect(-1), GemsEffect(1)]).gems == 1
    ensures MaxZero(0 + GemsTotal([GemsEffect(-1), GemsEffect(1)])) == 0
  {
    assert [GemsEffect(-1), GemsEffect(1)][1..] == [GemsEffect(1)];
  }

  /** The base effects of a card, in order; probability and choice effects are skipped. */
  function BaseEffectsOf(effects: seq<Effect>): (r: seq<BaseEffect>)
    ensures |r| <= |effects|
    ensures forall b :: b in r <==> Base(b) in effects
    ensures |effects| == 1 ==> r == (if effects[0].Base? then [effects[0].base] else [])
  {
    if effects == [] then []
    else
      var rest := BaseEffectsOf(effects[1..]);
      assert forall e :: e in effects <==> e == effects[0] || e in effects[1..];
      if effects[0].Base? then [effects[0].base] + rest else rest
  }

  /**
   * Filtering a concatenation filters each part and concatenates: together
   * with the one-effect case above, every base effect is kept once per
   * occurrence and in its original order.
   */
  lemma {:induction false} BaseEffectsOfAppend(a: seq<Effect>, b: seq<Effect>)
    ensures BaseEffectsOf(a + b) == BaseEffectsOf(a) + BaseEffectsOf(b)
    decreases a
  {
    if a == [] {
      assert a + b == b;
    } else {
      assert (a + b)[1..] == a[1..] + b;
      BaseEffectsOfAppend(a[1..], b);
    }
  }

  /** A card of base effects only keeps them all, so the fold sees every effect in order. */
  lemma {:induction false} BaseEffectsOfAllBase(effects: seq<Effect>)
    requires forall i :: 0 <= i < |effects| ==> effects[i].Base?
    ensures BaseEffectsOf(effects) == seq(|effects|, i requires 0 <= i < |effects| => effects[i].base)
    decreases effects
  {
    if effects != [] {
      BaseEffectsOfAllBase(effects[1..]);
    }
  }

  predicate HasProbability(effects: seq<Effect>)
  {
    exists i :: 0 <= i < |effects| && effects[i].Probability?
  }

  predicate HasChoice(effects: seq<Effect>)
  {
    exists i :: 0 <= i < |effects| && effects[i].Choice?
  }

  /** The panel a drawn card opens: a roll first, then a choice, otherwise the effects display. */
  function PanelFor(effects: seq<Effect>): (p: Panel)
    ensures p == ProbabilityPhase <==> HasProbability(effects)
    ensures p == ChoicePhase <==> !HasProbability(effects) && HasChoice(effects)
    ensures p == EffectsPhase <==> !HasProbability(effects) && !HasChoice(effects)
  {
    if HasProbability(effects) then ProbabilityPhase
    else if HasChoice(effects) then ChoicePhase
    else EffectsPhase
  }

  /** The first probability effect of a card, as `find` returns it. */
  function FindProbability(effects: seq<Effect>): (r: Option<Effect>)
    ensures r.None? <==> !HasProbability(effects)
    ensures r.Some? ==> r.value.Probability?
  {
    JsBuiltins.Find(effects, (e: Effect) => e.Probability?)
  }

  /** The first choice effect of a card, as `find` returns it. */
  function FindChoice(effects: seq<Effect>): (r: Option<Effect>)
    ensures r.None? <==> !HasChoice(effects)
    ensures r.Some? ==> r.value.Choice?
  {
    JsBuiltins.Find(effects, (e: Effect) => e.Choice?)
  }

  /** Halving on a failed exam never makes a non-negative resource negative or larger. */
  lemma HalvingShrinks(x: real)
    requires x >= 0.0
    ensures 0 <= JsBuiltins.Round(x / 2.0) && JsBuiltins.Round(x / 2.0) as real <= x + 0.0
  {
  }

  /** On integers, rounding half of g is the ceiling of g / 2. */
  lemma HalvingRoundsUp(g: int)
    ensures JsBuiltins.Round(g as real / 2.0) == (g + 1) / 2
  {
    var r := (g + 1) / 2;
    assert g + 1 == 2 * r || g + 1 == 2 * r + 1;
  }

  /** `processCard` on a session value. */
  function ProcessOutcome(s: Session): Session
  {
    if s.currentCard.None? then s
    else
      var effects := s.currentCard.value.effects;
      var panel := PanelFor(effects);
      if panel == EffectsPhase then
        var r := ApplyAll(Resources(s.gems, s.gpa), BaseEffectsOf(effects));
        s.(gems := r.gems, gpa := r.gpa, panel := panel)
      else s.(panel := panel)
  }

  /** `move` on a session value: step, relocate, draw, process. */
  function MoveOutcome(s: Session, spaces: int, direction: Board.Direction, random: real): Session
    requires 0.0 <= random < 1.0
  {
    var position := Board.GetNextPosition(s.position, direction, spaces, Board.BOARD_SIZE);
    var location := Board.GetLocationFromPosition(position);
    var d := Cards.DrawCard(s.deck, location, random);
    ProcessOutcome(s.(position := position, location := location,
                      deck := d.remainingDeck, currentCard := d.card))
  }

  /** `handleExam` on a session value. */
  function ExamOutcome(s: Session, result: ExamResult, spawn: SpawnConfig): Session
  {
    if result == Pass then InitGameState(spawn)
    else s.(gpa := JsBuiltins.Round(s.gpa / 2.0) as real,
            gems := JsBuiltins.Round(s.gems as real / 2.0))
  }

  /**
   * Moving k spaces one way and then k spaces the other way brings the token
   * back to where it was, whatever cards were drawn in between.
   */
  lemma MoveThenBackReturns(s: Session, spaces: int, direction: Board.Direction, r1: real, r2: real)
    requires 0.0 <= r1 < 1.0 && 0.0 <= r2 < 1.0
    requires 0 <= s.position < Board.BOARD_SIZE
    ensures MoveOutcome(MoveOutcome(s, spaces, direction, r1), spaces, -(direction as int), r2).position
              == s.position
  {
    Board.MoveBackReturns(s.position, direction, spaces, Board.BOARD_SIZE);
  }

  class Store {
    var gems: int
    var gpa: real
    var position: int
    var deck: seq<Card>
    var currentCard: Option<Card>
    var location: Location
    var panel: Panel
    var state: Lifecycle

    function Snapshot(): Session
      reads this
    {
      Session(gems, gpa, position, deck, currentCard, location, panel, state)
    }

    function Res(): Resources
      reads this
    {
      Resources(gems, gpa)
    }

    ghost predicate Valid()
      reads this
    {
      ValidSession(Snapshot())
    }

    /** The store as it is created: a fresh session for the spawn profile. */
    constructor (spawn: SpawnConfig)
      ensures Snapshot() == InitGameState(spawn) && Valid()
    {
      var s := InitGameState(spawn);
      gems, gpa, position, deck := s.gems, s.gpa, s.position, s.deck;
      currentCard, location, panel, state := s.currentCard, s.location, s.panel, s.state;
    }

    /** Replaces the whole session, as a single `set` of every field does. */
    method Load(s: Session)
      requires ValidSession(s)
      modifies this
      ensures Snapshot() == s && Valid()
    {
      gems, gpa, position, deck := s.gems, s.gpa, s.position, s.deck;
      currentCard, location, panel, state := s.currentCard, s.location, s.panel, s.state;
    }

    method UpdateGems(amount: int)
      modifies this`gems
      ensures gems == MaxZero(old(gems) + amount) && gems >= 0
    {
      gems := if 0 > gems + amount then 0 else gems + amount;
    }

    method UpdateGPA(amount: real)
      modifies this`gpa
      ensures gpa == MaxZeroReal(old(gpa) + amount) && gpa >= 0.0
    {
      gpa := if 0.0 > gpa + amount then 0.0 else gpa + amount;
    }

    /** Applies the effects in list order, each through the clamped updates. */
    method ApplyEffects(effects: seq<BaseEffect>)
      modifies this`gems, this`gpa
      ensures Res() == ApplyAll(old(Res()), effects)
    {
      for i := 0 to |effects|
        invariant Res() == ApplyAll(old(Res()), effects[..i])
      {
        var delta := ApplyBaseEffect(effects[i]);
        if delta.gems.Some? {
          UpdateGems(delta.gems.value);
        }
        if delta.gpa.Some? {
          UpdateGPA(delta.gpa.value);
        }
        ApplyAllAppend(old(Res()), effects[..i], [effects[i]]);
        assert effects[..i + 1] == effects[..i] + [effects[i]];
      }
      assert effects[..|effects|] == effects;
    }

    /** Draws a card for the current location into `currentCard`; the deck keeps the rest. */
    method DrawCard(random: real)
      requires 0.0 <= random < 1.0
      requires Valid()
      modifies this`deck, this`currentCard
      ensures Valid()
      ensures var d := Cards.DrawCard(old(deck), location, random);
              deck == d.remainingDeck && currentCard == d.card
      ensures old(deck) != [] ==> |deck| == |old(deck)| - 1
    {
      if deck != [] {
        DrawRemovesDrawnCard(deck, location, random);
      }
      var d := Cards.DrawCard(deck, location, random);
      deck, currentCard := d.remainingDeck, d.card;
    }

    /**
     * Opens the panel for the card in play; a card with only base effects
     * has them applied at once. Without a card nothing happens.
     */
    method ProcessCard()
      requires Valid()
      modifies this`gems, this`gpa, this`panel
      ensures Valid()
      ensures currentCard.None? ==> panel == old(panel) && Res() == old(Res())
      ensures currentCard.Some? ==> panel == PanelFor(currentCard.value.effects)
      ensures currentCard.Some? && panel == EffectsPhase ==>
                Res() == ApplyAll(old(Res()), BaseEffectsOf(currentCard.value.effects))
      ensures currentCard.Some? && panel != EffectsPhase ==> Res() == old(Res())
      ensures Snapshot() == ProcessOutcome(old(Snapshot()))
    {
      if currentCard.None? {
        return;
      }
      var card := currentCard.value;
      var newPanel := EffectsPhase;
      var hasProbability := exists i :: 0 <= i < |card.effects| && card.effects[i].Probability?;
      var hasChoice := exists i :: 0 <= i < |card.effects| && card.effects[i].Choice?;
      if hasProbability {
        newPanel := ProbabilityPhase;
      } else if hasChoice {
        newPanel := ChoicePhase;
      } else {
        ApplyAllNonNegative(Res(), BaseEffectsOf(card.effects));
        ApplyEffects(BaseEffectsOf(card.effects));
      }
      panel := newPanel;
    }

    /**
     * Moves the token, draws a card for the new location and processes it.
     * `random` is the value `Math.random()` returns inside the draw.
     */
    method Move(spaces: int, direction: Board.Direction, random: real)
      requires 0.0 <= random < 1.0
      requires Valid()
      modifies this`position, this`location, this`deck, this`currentCard, this`gems, this`gpa, this`panel
      ensures Valid()
      ensures position == Board.GetNextPosition(old(position), direction, spaces, Board.BOARD_SIZE)
      ensures location == Board.GetLocationFromPosition(position)
      ensures var d := Cards.DrawCard(old(deck), location, random);
              deck == d.remainingDeck && currentCard == d.card
      ensures currentCard.None? ==> panel == old(panel) && Res() == old(Res())
      ensures currentCard.Some? ==> panel == PanelFor(currentCard.value.effects)
      ensures currentCard.Some? && panel == EffectsPhase ==>
                Res() == ApplyAll(old(Res()), BaseEffectsOf(currentCard.value.effects))
      ensures currentCard.Some? && panel != EffectsPhase ==> Res() == old(Res())
      ensures Snapshot() == MoveOutcome(old(Snapshot()), spaces, direction, random)
    {
      position := Board.GetNextPosition(position, direction, spaces, Board.BOARD_SIZE);
      location := Board.GetLocationFromPosition(position);
      DrawCard(random);
      ProcessCard();
    }

    /**
     * Resolves the first probability effect of the card in play with a die
     * roll: the outcome is applied, recorded as the card's final outcome and
     * shown in the effects panel. Without a card or such an effect nothing
     * changes and nothing is returned.
     */
    method HandleRoll(roll: int) returns (effects: seq<BaseEffect>)
      requires Valid()
      modifies this`gems, this`gpa, this`panel, this`currentCard
      ensures Valid()
      ensures old(currentCard).None? || !HasProbability(old(currentCard).value.effects) ==>
                effects == [] && unchanged(this)
      ensures old(currentCard).Some? && HasProbability(old(currentCard).value.effects) ==>
                var card := old(currentCard).value;
                effects == ProcessRoll(FindProbability(card.effects).value, roll) &&
                Res() == ApplyAll(old(Res()), effects) &&
                panel == EffectsPhase &&
                currentCard == Some(card.(finalOutcome := Some(effects)))
    {
      if currentCard.None? {
        return [];
      }
      var card := currentCard.value;
      var probEffect := FindProbability(card.effects);
      if probEffect.Some? {
        effects := ProcessRoll(probEffect.value, roll);
        ApplyAllNonNegative(Res(), effects);
        ApplyEffects(effects);
        panel := EffectsPhase;
        currentCard := Some(card.(finalOutcome := Some(effects)));
        return effects;
      }
      return [];
    }

    /**
     * Resolves the first choice effect of the card in play with the chosen
     * option. A non-empty outcome is applied and recorded; declining (or an
     * index out of range) changes no resource. Either way the panel ends on
     * the move phase, since the last `set` overrides the effects phase.
     */
    method HandleChoice(choiceIndex: int) returns (effects: seq<BaseEffect>)
      requires Valid()
      modifies this`gems, this`gpa, this`panel, this`currentCard
      ensures Valid()
      ensures old(currentCard).None? || !HasChoice(old(currentCard).value.effects) ==>
                effects == [] && unchanged(this)
      ensures old(currentCard).Some? && HasChoice(old(currentCard).value.effects) ==>
                var card := old(currentCard).value;
                effects == ProcessChoice(FindChoice(card.effects).value, choiceIndex) &&
                panel == MovePhase &&
                (effects != [] ==> Res() == ApplyAll(old(Res()), effects) &&
                                   currentCard == Some(card.(finalOutcome := Some(effects)))) &&
                (effects == [] ==> Res() == old(Res()) && currentCard == old(currentCard))
    {
      if currentCard.None? {
        return [];
      }
      var card := currentCard.value;
      var choiceEffect := FindChoice(card.effects);
      if choiceEffect.Some? {
        effects := ProcessChoice(choiceEffect.value, choiceIndex);
        if |effects| > 0 {
          ApplyAllNonNegative(Res(), effects);
          ApplyEffects(effects);
          currentCard, panel := Some(currentCard.value.(finalOutcome := Some(effects))), EffectsPhase;
        }
        panel := MovePhase;
        return effects;
      }
      return [];
    }

    /**
     * Settles the final exam. A pass ends in a fresh session for the new
     * spawn profile (the gpa doubling it applies first is overwritten). A
     * fail halves both resources, rounding halves up, and keeps the rest.
     */
    method HandleExam(result: ExamResult, spawn: SpawnConfig)
      requires Valid()
      modifies this
      ensures Valid()
      ensures result == Pass ==> Snapshot() == InitGameState(spawn)
      ensures result == Fail ==>
                gpa == JsBuiltins.Round(old(gpa) / 2.0) as real &&
                gems == JsBuiltins.Round(old(gems) as real / 2.0) &&
                Snapshot() == old(Snapshot()).(gems := gems, gpa := gpa)
      ensures Snapshot() == ExamOutcome(old(Snapshot()), result, spawn)
    {
      var oldGpa, oldGems := gpa, gems;
      if result == Pass {
        UpdateGPA(oldGpa);
        ChangeState(Idle);
        ResetGame(spawn);
      } else {
        HalvingShrinks(oldGpa);
        HalvingShrinks(oldGems as real);
        gpa := JsBuiltins.Round(oldGpa / 2.0) as real;
        gems := JsBuiltins.Round(oldGems as real / 2.0);
      }
    }

    /** Closes the card display: back to the move phase. */
    method CloseCard()
      modifies this`panel
      ensures panel == MovePhase
    {
      panel := MovePhase;
    }

    method ChangeState(newState: Lifecycle)
      modifies this`state
      ensures state == newState
    {
      state := newState;
    }

    /** Starts over with a fresh session for the spawn profile. */
    method ResetGame(spawn: SpawnConfig)
      modifies this
      ensures Snapshot() == InitGameState(spawn) && Valid()
    {
      Load(InitGameState(spawn));
    }
  }
}
