/**
 * The card catalog and the effect resolver of the game: the four
 * neighborhoods, the locations a tile can stand for, cards and their
 * effects, the static deck, and the pure functions that turn an effect
 * into resource changes and draw a card from a deck.
 */
module Cards {
  import opened Wrappers
  import opened JsBuiltins

  datatype Neighborhood = Redlined | Gentrified | MiddleIncome | Rich

  /** What a tile stands for: a neighborhood or one of the three commercial tiles. */
  datatype Location = Hood(neighborhood: Neighborhood) | Hotel | Store | Tutor

  /** The magnitude of a base effect, -3 (bad) to +3 (good). */
  type Magnitude = m: int | -3 <= m <= 3

  datatype Resource = Gems | Gpa

  /** A direct change of one resource. */
  datatype BaseEffect = BaseEffect(kind: Resource, magnitude: Magnitude)

  datatype ChoiceOption = ChoiceOption(caption: string, effects: seq<BaseEffect>)

  /**
   * A card effect: a direct change, a die roll whose outcome is a pure
   * function of the roll (1 to 6), or a choice among indexed options.
   */
  datatype Effect =
    | Base(base: BaseEffect)
    | Probability(description: string, getOutcome: int -> seq<BaseEffect>)
    | Choice(options: seq<ChoiceOption>)

  /** A card; `finalOutcome` records the resolved effects of a roll or a choice. */
  datatype Card = Card(id: string, title: string, neighborhood: Neighborhood,
                       effects: seq<Effect>, finalOutcome: Option<seq<BaseEffect>> := None)

  function GemsEffect(m: Magnitude): BaseEffect { BaseEffect(Gems, m) }
  function GpaEffect(m: Magnitude): BaseEffect { BaseEffect(Gpa, m) }

  /** The option every job offer starts with: decline, changing nothing. */
  const DECLINE := ChoiceOption("Decline", [])

  /** The full catalog the deck of every session starts from. */
  function CreateDeck(): (deck: seq<Card>)
    ensures |deck| == 33
  {
    [
      // redlined neighborhood, negative cards
      Card("red-n-1", "Food Desert", Redlined, [Base(GemsEffect(-1))]),
      Card("red-n-2", "Limited Library Hours", Redlined, [Base(GpaEffect(-1))]),
      Card("red-n-3", "Parent Works Two Jobs", Redlined, [Base(GpaEffect(-1))]),
      Card("red-n-4", "Wildfire Health Impact", Redlined,
           [Probability("Roll a die. Roll a 4 or higher for better healthcare coverage.",
                        roll => if roll >= 4 then [GemsEffect(-1)] else [GemsEffect(-2)])]),
      Card("red-n-5", "Unreliable Public Transit", Redlined, [Base(GpaEffect(-1))]),
      Card("red-n-6", "Limited School Resources", Redlined, [Base(GpaEffect(-1))]),
      Card("red-n-7", "Family Healthcare Crisis", Redlined, [Base(GpaEffect(-1))]),
      Card("red-n-8", "Utility Bills Crisis", Redlined, [Base(GpaEffect(-1))]),
      Card("red-n-9", "ICE Raids", Redlined,
           [Probability("Roll a die. Roll a 3 or higher to be safe.",
                        roll => if roll >= 3 then [] else [GemsEffect(-2)])]),
      Card("red-n-10", "Medical Emergency", Redlined, [Base(GemsEffect(-3)), Base(GpaEffect(-1))]),
      // redlined neighborhood, positive cards
      Card("red-p-1", "Massive Scholarship", Redlined, [Base(GemsEffect(2))]),
      Card("red-p-2", "Sibling Support", Redlined, [Base(GpaEffect(1))]),
      Card("red-p-3", "Library Grant", Redlined, [Base(GpaEffect(1))]),
      Card("red-p-4", "Urban Farm Project", Redlined, [Base(GemsEffect(1)), Base(GpaEffect(1))]),
      // job offers at the hotel and the corner store (filed under redlined)
      Card("loc-hotel-1", "Part-time Job Opportunity", Redlined,
           [Choice([DECLINE, ChoiceOption("Accept job - Valet", [GemsEffect(2), GpaEffect(-2)])])]),
      Card("loc-store-1", "Corner Store Job", Redlined,
           [Choice([DECLINE, ChoiceOption("Accept job - Cashier", [GemsEffect(1), GpaEffect(-1)])])]),
      // gentrified neighborhood
      Card("gen-n-1", "Community Center Closure", Gentrified, [Base(GpaEffect(-1))]),
      Card("gen-n-2", "Rent Control Rollback", Gentrified, [Base(GemsEffect(-1))]),
      Card("gen-n-3", "Tech Company Move-In", Gentrified, [Base(GemsEffect(-1))]),
      Card("gen-p-1", "Private Tutoring", Gentrified, [Base(GpaEffect(1))]),
      Card("gen-p-2", "Summer Internship", Gentrified, [Base(GpaEffect(1))]),
      Card("gen-p-3", "Writing Competition", Gentrified, [Base(GemsEffect(1))]),
      Card("gen-p-4", "Affordable Housing", Gentrified, [Base(GemsEffect(2))]),
      // middle-income neighborhood
      Card("mid-n-1", "Scholarship Competition", MiddleIncome,
           [Probability("Roll a die to see if you qualify.",
                        roll => if roll >= 4 then [GemsEffect(2)] else [])]),
      Card("mid-n-2", "AI Layoffs", MiddleIncome, [Base(GemsEffect(-2))]),
      Card("mid-p-1", "PTA Funding", MiddleIncome, [Base(GpaEffect(1))]),
      Card("mid-p-2", "Public Park Upgpa", MiddleIncome, [Base(GpaEffect(1))]),
      // rich neighborhood
      Card("rich-p-1", "Connected Parents", Rich, [Base(GpaEffect(1))]),
      Card("rich-p-2", "Private Tutoring", Rich, [Base(GpaEffect(1))]),
      Card("rich-p-3", "SAT Prep Course", Rich, [Base(GpaEffect(2))]),
      Card("rich-p-4", "Alumni Connections", Rich, [Base(GpaEffect(1))]),
      Card("rich-p-5", "Family Connections", Rich, [Base(GpaEffect(2))]),
      Card("rich-p-6", "Focus on School", Rich, [Base(GpaEffect(1))])
    ]
  }

  /** No two cards of the deck share an id. */
  ghost predicate DistinctIds(deck: seq<Card>)
  {
    forall i, j :: 0 <= i < j < |deck| ==> deck[i].id != deck[j].id
  }

  const CATALOG_IDS: seq<string> := [
    "red-n-1", "red-n-2", "red-n-3", "red-n-4", "red-n-5", "red-n-6", "red-n-7", "red-n-8",
    "red-n-9", "red-n-10", "red-p-1", "red-p-2", "red-p-3", "red-p-4", "loc-hotel-1",
    "loc-store-1", "gen-n-1", "gen-n-2", "gen-n-3", "gen-p-1", "gen-p-2", "gen-p-3", "gen-p-4",
    "mid-n-1", "mid-n-2", "mid-p-1", "mid-p-2", "rich-p-1", "rich-p-2", "rich-p-3", "rich-p-4",
    "rich-p-5", "rich-p-6"]

  lemma CatalogIdsFront()
    ensures forall i :: 0 <= i < 17 ==> CreateDeck()[i].id == CATALOG_IDS[i]
  {
  }

  lemma CatalogIdsBack()
    ensures forall i :: 17 <= i < 33 ==> CreateDeck()[i].id == CATALOG_IDS[i]
  {
  }

  lemma IdsDistinctFront()
    ensures forall i, j :: 0 <= i < j < 17 ==> CATALOG_IDS[i] != CATALOG_IDS[j]
  {
  }

  lemma IdsDistinctBack()
    ensures forall i, j :: 17 <= i < j < 33 ==> CATALOG_IDS[i] != CATALOG_IDS[j]
  {
  }

  lemma IdsDistinctAcross()
    ensures forall i, j :: 0 <= i < 17 <= j < 33 ==> CATALOG_IDS[i] != CATALOG_IDS[j]
  {
  }

  lemma CatalogIdsDistinct()
    ensures |CreateDeck()| == 33
    ensures DistinctIds(CreateDeck())
  {
    CatalogIdsFront();
    CatalogIdsBack();
    IdsDistinctFront();
    IdsDistinctBack();
    IdsDistinctAcross();
  }

  /** Every neighborhood has cards in the catalog, so a fresh deck can serve any of them. */
  lemma CatalogCoversNeighborhoods(n: Neighborhood)
    ensures GetCardsByNeighborhood(CreateDeck(), Hood(n)) != []
  {
    var deck := CreateDeck();
    var k := match n
      case Redlined => 0
      case Gentrified => 16
      case MiddleIncome => 23
      case Rich => 27;
    assert deck[k].neighborhood == n;
    assert deck[k] in deck;
  }

  /** Every choice effect of the catalog offers "Decline" with no effects as its first option. */
  lemma CatalogChoicesStartWithDecline()
    ensures forall i, j ::
              (0 <= i < |CreateDeck()| && 0 <= j < |CreateDeck()[i].effects| &&
               CreateDeck()[i].effects[j].Choice?) ==>
              |CreateDeck()[i].effects[j].options| > 0 && CreateDeck()[i].effects[j].options[0] == DECLINE
  {
    var deck := CreateDeck();
    forall i, j | 0 <= i < |deck| && 0 <= j < |deck[i].effects| && deck[i].effects[j].Choice?
      ensures |deck[i].effects[j].options| > 0 && deck[i].effects[j].options[0] == DECLINE
    {
      assert i == 14 || i == 15;
    }
  }

  /** The die outcomes of "Wildfire Health Impact", "ICE Raids" and "Scholarship Competition". */
  lemma CatalogRollOutcomes(roll: int)
    ensures CreateDeck()[3].id == "red-n-4" && CreateDeck()[3].effects[0].Probability?
    ensures ProcessRoll(CreateDeck()[3].effects[0], roll) ==
              if roll >= 4 then [GemsEffect(-1)] else [GemsEffect(-2)]
    ensures CreateDeck()[8].id == "red-n-9" && CreateDeck()[8].effects[0].Probability?
    ensures ProcessRoll(CreateDeck()[8].effects[0], roll) ==
              if roll >= 3 then [] else [GemsEffect(-2)]
    ensures CreateDeck()[23].id == "mid-n-1" && CreateDeck()[23].effects[0].Probability?
    ensures ProcessRoll(CreateDeck()[23].effects[0], roll) ==
              if roll >= 4 then [GemsEffect(2)] else []
  {
  }

  /** The three cards above hold the catalog's only probability effects, each as its first effect. */
  lemma CatalogRollCards()
    ensures forall i, j ::
              (0 <= i < |CreateDeck()| && 0 <= j < |CreateDeck()[i].effects| &&
               CreateDeck()[i].effects[j].Probability?) ==>
              (i == 3 || i == 8 || i == 23) && j == 0
  {
    var deck := CreateDeck();
    forall i, j | 0 <= i < |deck| && 0 <= j < |deck[i].effects| && deck[i].effects[j].Probability?
      ensures (i == 3 || i == 8 || i == 23) && j == 0
    {
    }
  }

  /** The cards of a location: a card belongs to the neighborhood it names, never to a commercial tile. */
  function GetCardsByNeighborhood(deck: seq<Card>, location: Location): (r: seq<Card>)
    ensures forall c :: c in r <==> c in deck && Hood(c.neighborhood) == location
    ensures !location.Hood? ==> r == []
  {
    var r := Filter(deck, (c: Card) => Hood(c.neighborhood) == location);
    assert r != [] ==> r[0] in r;
    r
  }

  /** The deck without the cards that carry the given id, in their original order. */
  function WithoutId(deck: seq<Card>, id: string): (r: seq<Card>)
    ensures forall c :: c in r <==> c in deck && c.id != id
  {
    Filter(deck, (c: Card) => c.id != id)
  }

  /** The resource changes of a base effect; gpa moves in tenths of the magnitude. */
  datatype Delta = Delta(gems: Option<int>, gpa: Option<real>)

  function ApplyBaseEffect(effect: BaseEffect): (r: Delta)
    ensures r.gems.Some? <==> effect.kind == Gems
    ensures r.gpa.Some? <==> effect.kind == Gpa
    ensures r.gems.Some? ==> r.gems.value == effect.magnitude
    ensures r.gpa.Some? ==> r.gpa.value * 10.0 == effect.magnitude as real
  {
    match effect.kind
    case Gems => Delta(Some(effect.magnitude), None)
    case Gpa => Delta(None, Some(effect.magnitude as real * 0.1))
  }

  /** The effects a die roll yields for a probability effect. */
  function ProcessRoll(effect: Effect, roll: int): (r: seq<BaseEffect>)
    requires effect.Probability?
    ensures r == effect.getOutcome(roll)
  {
    effect.getOutcome(roll)
  }

  /** The effects of the chosen option; an index out of range chooses nothing. */
  function ProcessChoice(effect: Effect, choiceIndex: int): (r: seq<BaseEffect>)
    requires effect.Choice?
    ensures 0 <= choiceIndex < |effect.options| ==> r == effect.options[choiceIndex].effects
    ensures !(0 <= choiceIndex < |effect.options|) ==> r == []
  {
    if 0 <= choiceIndex < |effect.options| then effect.options[choiceIndex].effects else []
  }

  /** The drawn card (none from an empty deck) and the deck left behind. */
  datatype Draw = Draw(card: Option<Card>, remainingDeck: seq<Card>)

  /**
   * Draws a card for a location; `random` is the value `Math.random()` returned.
   * A card of the location is preferred and every card with its id leaves the
   * deck; when the location has no card, any card is drawn and removed by index.
   */
  function DrawCard(deck: seq<Card>, location: Location, random: real): (d: Draw)
    requires 0.0 <= random < 1.0
    ensures deck == [] ==> d == Draw(None, [])
    ensures deck != [] ==> d.card.Some? && d.card.value in deck
    ensures deck != [] && GetCardsByNeighborhood(deck, location) != [] ==>
              Hood(d.card.value.neighborhood) == location &&
              d.remainingDeck == WithoutId(deck, d.card.value.id)
    ensures deck != [] && GetCardsByNeighborhood(deck, location) == [] ==>
              var k := RandomIndex(random, |deck|);
              d.card == Some(deck[k]) && d.remainingDeck == deck[..k] + deck[k + 1..]
  {
    if |deck| == 0 then
      Draw(None, [])
    else
      var neighborhoodCards := GetCardsByNeighborhood(deck, location);
      if |neighborhoodCards| == 0 then
        var randomIndex := RandomIndex(random, |deck|);
        Draw(Some(deck[randomIndex]), deck[..randomIndex] + deck[randomIndex + 1..])
      else
        var card := neighborhoodCards[RandomIndex(random, |neighborhoodCards|)];
        Draw(Some(card), WithoutId(deck, card.id))
  }

  /** With distinct ids, removing the id of the card at k removes exactly that card. */
  lemma {:induction false} WithoutUniqueId(deck: seq<Card>, k: nat)
    requires DistinctIds(deck) && k < |deck|
    ensures WithoutId(deck, deck[k].id) == deck[..k] + deck[k + 1..]
  {
    var id := deck[k].id;
    var keep := (c: Card) => c.id != id;
    assert deck == deck[..k] + ([deck[k]] + deck[k + 1..]);
    FilterAppend(deck[..k], [deck[k]] + deck[k + 1..], keep);
    FilterAppend([deck[k]], deck[k + 1..], keep);
    FilterAll(deck[..k], keep);
    FilterAll(deck[k + 1..], keep);
    assert Filter([deck[k]], keep) == [];
  }

  /** Removing one card keeps the remaining ids distinct. */
  lemma DistinctIdsAfterRemoval(deck: seq<Card>, k: nat)
    requires DistinctIds(deck) && k < |deck|
    ensures DistinctIds(deck[..k] + deck[k + 1..])
  {
    var rest := deck[..k] + deck[k + 1..];
    forall i, j | 0 <= i < j < |rest| ensures rest[i].id != rest[j].id {
      var i' := if i < k then i else i + 1;
      var j' := if j < k then j else j + 1;
      assert rest[i] == deck[i'] && rest[j] == deck[j'];
    }
  }

  /**
   * In a deck whose ids are distinct, a draw takes out exactly the drawn card:
   * the deck shrinks by one and its ids stay distinct.
   */
  lemma DrawRemovesDrawnCard(deck: seq<Card>, location: Location, random: real)
    requires 0.0 <= random < 1.0
    requires DistinctIds(deck) && deck != []
    ensures var d := DrawCard(deck, location, random);
            exists k :: 0 <= k < |deck| && d.card == Some(deck[k]) &&
                        d.remainingDeck == deck[..k] + deck[k + 1..]
    ensures |DrawCard(deck, location, random).remainingDeck| == |deck| - 1
    ensures DistinctIds(DrawCard(deck, location, random).remainingDeck)
  {
    var d := DrawCard(deck, location, random);
    var k: nat;
    if GetCardsByNeighborhood(deck, location) == [] {
      k := RandomIndex(random, |deck|);
    } else {
      var card := d.card.value;
      assert card in deck;
      k :| k < |deck| && deck[k] == card;
      WithoutUniqueId(deck, k);
      assert d.remainingDeck == WithoutId(deck, card.id);
    }
    assert d.card == Some(deck[k]) && d.remainingDeck == deck[..k] + deck[k + 1..];
    DistinctIdsAfterRemoval(deck, k);
  }

  /**
   * Every card the code can draw is drawn for some value of `Math.random()`:
   * any card of the location when it has some, any card of the deck when not.
   */
  lemma DrawReachesEveryCandidate(deck: seq<Card>, location: Location, c: Card)
    requires c in deck
    requires GetCardsByNeighborhood(deck, location) != [] ==> c in GetCardsByNeighborhood(deck, location)
    ensures exists random :: 0.0 <= random < 1.0 && DrawCard(deck, location, random).card == Some(c)
  {
    var cards := GetCardsByNeighborhood(deck, location);
    var pool := if cards == [] then deck else cards;
    var k :| 0 <= k < |pool| && pool[k] == c;
    RandomIndexOnto(k, |pool|);
    var random := k as real / |pool| as real;
    assert DrawCard(deck, location, random).card == Some(c);
  }

  /** A commercial tile has no cards of its own: a draw there takes any card out of the deck. */
  lemma CommercialDrawConsumes(deck: seq<Card>, location: Location, random: real)
    requires 0.0 <= random < 1.0
    requires !location.Hood? && deck != []
    ensures |DrawCard(deck, location, random).remainingDeck| == |deck| - 1
  {
  }
}
