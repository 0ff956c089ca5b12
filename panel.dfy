/**
 * The side panel: which view each panel phase shows, the titles of the
 * effects view, and the move panel's roll-then-choose-direction machine.
 */
module Panel {
  import opened Wrappers
  import opened Cards
  import JsBuiltins
  import GameStore

  /** The heading over one effect: a gain only for a positive magnitude. */
  function Title(effect: BaseEffect): (t: string)
    ensures t == "You gained" || t == "You lost"
    ensures t == "You gained" <==> effect.magnitude > 0
  {
    if effect.magnitude > 0 then "You gained" else "You lost"
  }

  /**
   * The heading over an effect of the card in play. The view treats every
   * effect as a base effect; a probability or choice effect has no
   * magnitude, and an undefined magnitude is not positive.
   */
  function EffectTitle(effect: Effect): (t: string)
    ensures t == "You gained" <==> effect.Base? && effect.base.magnitude > 0
  {
    if effect.Base? then Title(effect.base) else "You lost"
  }

  /** One entry of the effects view: its heading, and whether it shows the gem icon and colour. */
  datatype Entry = Entry(title: string, isGems: bool)

  function EntryFor(effect: Effect): Entry
  {
    Entry(EffectTitle(effect), effect.Base? && effect.base.kind == Gems)
  }

  /**
   * The effects view as written: nothing for a missing or empty list, the
   * computed heading for a single effect, and a fixed "You lost" heading
   * on every entry of a longer list.
   */
  function EffectsViewAsWritten(effects: Option<seq<Effect>>): (v: Option<seq<Entry>>)
    ensures v.None? <==> effects.None? || effects.value == []
    ensures v.Some? ==> |v.value| == |effects.value|
    ensures v.Some? && |v.value| == 1 ==> v.value[0].title == EffectTitle(effects.value[0])
    ensures v.Some? && |v.value| >= 2 ==> forall i :: 0 <= i < |v.value| ==> v.value[i].title == "You lost"
    ensures v.Some? ==> forall i :: 0 <= i < |v.value| ==>
              (v.value[i].isGems <==> effects.value[i].Base? && effects.value[i].base.kind == Gems)
  {
    if effects.None? || |effects.value| == 0 then None
    else if |effects.value| == 1 then Some([EntryFor(effects.value[0])])
    else Some(seq(|effects.value|, i requires 0 <= i < |effects.value| =>
                    Entry("You lost", effects.value[i].Base? && effects.value[i].base.kind == Gems)))
  }

  /** A card that gains one gem and one gpa step is shown as two losses. */
  lemma AsWrittenShowsGainsAsLosses()
    ensures var v := EffectsViewAsWritten(Some([Base(GemsEffect(1)), Base(GpaEffect(1))]));
            v.Some? && |v.value| == 2 && v.value[0].title == "You lost" && v.value[1].title == "You lost"
    ensures Title(GemsEffect(1)) == "You gained" && Title(GpaEffect(1)) == "You gained"
  {
  }

  /** The effects view with every entry headed by its own effect's sign. */
  function EffectsView(effects: Option<seq<Effect>>): (v: Option<seq<Entry>>)
    ensures v.None? <==> effects.None? || effects.value == []
    ensures v.Some? ==> |v.value| == |effects.value|
    ensures v.Some? ==> forall i :: 0 <= i < |v.value| ==>
              (v.value[i].title == "You gained" <==> effects.value[i].Base? && effects.value[i].base.magnitude > 0)
    ensures v.Some? ==> forall i :: 0 <= i < |v.value| ==>
              (v.value[i].isGems <==> effects.value[i].Base? && effects.value[i].base.kind == Gems)
  {
    if effects.None? || |effects.value| == 0 then None
    else Some(seq(|effects.value|, i requires 0 <= i < |effects.value| => EntryFor(effects.value[i])))
  }

  /** The two views agree on everything except the headings of multi-effect cards. */
  lemma ViewsAgreeOnSingleEffects(effects: Option<seq<Effect>>)
    requires effects.None? || |effects.value| <= 1
    ensures EffectsViewAsWritten(effects) == EffectsView(effects)
  {
    if effects.Some? && |effects.value| == 1 {
      assert EffectsView(effects).value == [EntryFor(effects.value[0])];
    }
  }

  /** The panel views; the probability and choice views are placeholders. */
  datatype View = MoveView | EffectsListView(entries: seq<Entry>) | ProbabilityView | ChoiceView

  /**
   * The view for a panel phase, as the panel renders it: the effects phase
   * lists the card's effects with the headings of `EffectsViewAsWritten`;
   * the action phase has no case and shows nothing.
   */
  function PanelView(panel: GameStore.Panel, card: Option<Card>): (v: Option<View>)
    ensures panel == GameStore.ActionPhase ==> v.None?
    ensures panel == GameStore.MovePhase ==> v == Some(MoveView)
    ensures panel == GameStore.ProbabilityPhase ==> v == Some(ProbabilityView)
    ensures panel == GameStore.ChoicePhase ==> v == Some(ChoiceView)
    ensures panel == GameStore.EffectsPhase ==>
              (v.None? <==> card.None? || card.value.effects == []) &&
              (v.Some? ==> v.value == EffectsListView(EffectsViewAsWritten(Some(card.value.effects)).value))
  {
    match panel
    case MovePhase => Some(MoveView)
    case EffectsPhase =>
      var entries := EffectsViewAsWritten(if card.Some? then Some(card.value.effects) else None);
      if entries.Some? then Some(EffectsListView(entries.value)) else None
    case ProbabilityPhase => Some(ProbabilityView)
    case ChoicePhase => Some(ChoiceView)
    case ActionPhase => None
  }

  /** The same dispatch with every effect headed by its own sign, as `EffectsView` does. */
  function PanelViewCorrected(panel: GameStore.Panel, card: Option<Card>): (v: Option<View>)
    ensures panel != GameStore.EffectsPhase ==> v == PanelView(panel, card)
    ensures panel == GameStore.EffectsPhase ==>
              (v.None? <==> card.None? || card.value.effects == []) &&
              (v.Some? ==> (v.value.EffectsListView? && |v.value.entries| == |card.value.effects| &&
                            forall i :: 0 <= i < |v.value.entries| ==>
                              (v.value.entries[i].title == "You gained" <==>
                               card.value.effects[i].Base? && card.value.effects[i].base.magnitude > 0)))
  {
    if panel == GameStore.EffectsPhase then
      var entries := EffectsView(if card.Some? then Some(card.value.effects) else None);
      if entries.Some? then Some(EffectsListView(entries.value)) else None
    else PanelView(panel, card)
  }

  /** On the effects panel, red-p-4's two gains read as losses; the corrected dispatch reads them as gains. */
  lemma PanelShowsGainsAsLosses()
    ensures var card := Some(Card("red-p-4", "Urban Farm Project", Redlined, [Base(GemsEffect(1)), Base(GpaEffect(1))]));
            var v := PanelView(GameStore.EffectsPhase, card);
            var w := PanelViewCorrected(GameStore.EffectsPhase, card);
            v.Some? && v.value.entries[0].title == "You lost" && v.value.entries[1].title == "You lost" &&
            w.Some? && w.value.entries[0].title == "You gained" && w.value.entries[1].title == "You gained"
  {
  }

  /** A drawn card never sends the panel to the unrendered action phase. */
  lemma DrawnCardsAreRendered(effects: seq<Effect>)
    requires effects != []
    ensures PanelView(GameStore.PanelFor(effects), Some(Card("", "", Redlined, effects))).Some?
  {
  }

  datatype MoveStatus = Idle | Reveal | PendingAction

  class MovePanel {
    var status: MoveStatus
    var number: int

    constructor ()
      ensures status == Idle && number == 0
    {
      status, number := Idle, 0;
    }

    /** Rolls the die (`random` stands for `Math.random()`) and reveals it. */
    method HandleRoll(random: real)
      requires 0.0 <= random < 1.0
      modifies this`status, this`number
      ensures status == Reveal
      ensures number == JsBuiltins.RollDie(random) && 1 <= number <= 6
    {
      status := Reveal;
      number := JsBuiltins.RollDie(random);
    }

    /** The delayed step after a roll: the player may now pick a direction. */
    method RevealElapsed()
      modifies this`status
      ensures status == PendingAction
    {
      status := PendingAction;
    }

    /** Moves the rolled number of spaces backwards; `random` is the draw's. */
    method HandleBack(store: GameStore.Store, random: real)
      requires 0.0 <= random < 1.0 && store.Valid()
      modifies this`status, store
      ensures store.Valid()
      ensures store.Snapshot() == GameStore.MoveOutcome(old(store.Snapshot()), number, -1, random)
      ensures status == Idle && number == old(number)
    {
      store.Move(number, -1, random);
      status := Idle;
    }

    /** Moves the rolled number of spaces forwards; `random` is the draw's. */
    method HandleForward(store: GameStore.Store, random: real)
      requires 0.0 <= random < 1.0 && store.Valid()
      modifies this`status, store
      ensures store.Valid()
      ensures store.Snapshot() == GameStore.MoveOutcome(old(store.Snapshot()), number, 1, random)
      ensures status == Idle && number == old(number)
    {
      store.Move(number, 1, random);
      status := Idle;
    }
  }
}
