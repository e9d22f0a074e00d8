/**
 * The feeding game for young players: an animal asks for a number of food
 * items between 1 and 5, and the player drags food onto it one item at a time.
 * Feeding exactly that many earns XP; feeding more fails the round.
 *
 * The food item with id `food-i` is written as the number i.
 */
module FeedGame {
  import opened Wrappers
  import opened Seqs
  import opened Random
  import opened Progression

  datatype Animal = Animal(emoji: string, name: string, food: string)

  const ANIMALS: seq<Animal> := [
    Animal("🦁", "אריה", "🍖"),
    Animal("🐘", "פיל", "🥜"),
    Animal("🐰", "ארנב", "🥕"),
    Animal("🐵", "קוף", "🍌")
  ]

  /** Every round offers this many food items. */
  const FOOD_COUNT: nat := 8

  /** The drop zone id of the animal. */
  const ANIMAL_ZONE: string := "animal"

  /** `Array.from({ length: 8 }, (_, i) => `food-${i}`)`: the ids 0..7 in order. */
  function FoodIds(): (ids: seq<nat>)
    ensures |ids| == FOOD_COUNT && Distinct(ids)
    ensures forall i :: 0 <= i < FOOD_COUNT ==> ids[i] == i
  {
    seq(FOOD_COUNT, i => i)
  }

  /** What a drop schedules: the success screen with its XP, or a new round. */
  datatype Followup = NoFollowup | CompleteAfter(delay: nat, xp: int) | NewRoundAfter(delay: nat)

  class Game {
    var animal: Animal
    var targetCount: int
    var fedCount: nat
    var foodItems: seq<nat>
    var showComplete: bool
    var round: nat

    /**
     * The food still on the board is a set of distinct ids among the round's
     * eight, and together with the food already eaten it makes up all eight.
     */
    predicate Valid()
      reads this
    {
      && Distinct(foodItems)
      && (forall id :: id in foodItems ==> id < FOOD_COUNT)
      && fedCount + |foodItems| == FOOD_COUNT
    }

    /**
     * The component's initial state, before its first round starts. The mount
     * effect starts that round at once: the caller's next call is
     * `StartNewRound`, which replaces the animal, the target and the plate.
     */
    constructor ()
      ensures animal == ANIMALS[0] && targetCount == 3 && fedCount == 0
      ensures foodItems == [] && !showComplete && round == 1
    {
      animal := ANIMALS[0];
      targetCount := 3;
      fedCount := 0;
      foodItems := [];
      showComplete := false;
      round := 1;
    }

    /**
     * `startNewRound`: an animal drawn from `uAnimal`, a target in [1, 5] from
     * `uTarget`, all eight food items back and nothing fed.
     */
    method StartNewRound(uAnimal: Draw, uTarget: Draw)
      modifies this
      ensures animal == ANIMALS[RandomInt(0, |ANIMALS| - 1, uAnimal)] && animal in ANIMALS
      ensures targetCount == RandomInt(1, 5, uTarget) && 1 <= targetCount <= 5
      ensures fedCount == 0 && foodItems == FoodIds() && !showComplete
      ensures round == old(round)
      ensures Valid()
    {
      animal := ANIMALS[RandomInt(0, |ANIMALS| - 1, uAnimal)];
      targetCount := RandomInt(1, 5, uTarget);
      fedCount := 0;
      var items: seq<nat> := [];
      for i := 0 to FOOD_COUNT
        invariant items == FoodIds()[..i]
      {
        items := items + [i];
      }
      foodItems := items;
      showComplete := false;
    }

    /**
     * `handleDragEnd`: a drop outside the animal changes nothing. A drop on it
     * feeds one more item and takes the dropped id off the board. Reaching the
     * target schedules the success screen with `10 + 5 * target` XP; going past
     * it records a 0-XP `counting` attempt and schedules a new round.
     */
    method HandleDragEnd(active: nat, over: Option<string>, store: GameStore, today: string) returns (next: Followup)
      modifies this, store
      ensures animal == old(animal) && targetCount == old(targetCount)
      ensures showComplete == old(showComplete) && round == old(round)
      ensures (over == None || over.value != ANIMAL_ZONE) ==>
        next == NoFollowup && store.State() == old(store.State())
        && fedCount == old(fedCount) && foodItems == old(foodItems)
      ensures over == Some(ANIMAL_ZONE) ==>
        && fedCount == old(fedCount) + 1
        && foodItems == Without(old(foodItems), active)
        && multiset(foodItems) == multiset(old(foodItems))[active := 0]
        && (fedCount == targetCount ==>
              next == CompleteAfter(500, 10 + 5 * targetCount) && store.State() == old(store.State()))
        && (fedCount > targetCount ==>
              next == NewRoundAfter(1500)
              && store.State() == AddXPStep(old(store.State()), 0, Some("counting"), Some(false), today))
        && (fedCount < targetCount ==> next == NoFollowup && store.State() == old(store.State()))
      ensures over == Some(ANIMAL_ZONE) && old(Valid()) && old(active in foodItems) ==> Valid()
    {
      if over == None || over.value != ANIMAL_ZONE {
        return NoFollowup;
      }
      Feed(active);
      if fedCount == targetCount {
        next := CompleteAfter(500, 10 + targetCount * 5);
      } else if fedCount > targetCount {
        store.AddXP(0, Some("counting"), Some(false), today);
        next := NewRoundAfter(1500);
      } else {
        next := NoFollowup;
      }
    }

    /** The drop itself: one more item fed, the dropped id taken off the board. */
    method Feed(active: nat)
      modifies this
      ensures fedCount == old(fedCount) + 1
      ensures foodItems == Without(old(foodItems), active)
      ensures multiset(foodItems) == multiset(old(foodItems))[active := 0]
      ensures animal == old(animal) && targetCount == old(targetCount)
      ensures showComplete == old(showComplete) && round == old(round)
      ensures old(Valid()) && old(active in foodItems) ==> Valid()
    {
      if active in foodItems && Valid() {
        WithoutLength(foodItems, active);
        WithoutDistinct(foodItems, active);
      }
      fedCount := fedCount + 1;
      foodItems := Without(foodItems, active);
    }

    /** The success timeout: the success screen shows and the reward goes to `counting`. */
    method CompleteTimeout(xp: int, store: GameStore, today: string)
      modifies this, store
      ensures showComplete
      ensures animal == old(animal) && targetCount == old(targetCount) && fedCount == old(fedCount)
      ensures foodItems == old(foodItems) && round == old(round)
      ensures store.State() == AddXPStep(old(store.State()), xp, Some("counting"), Some(true), today)
    {
      showComplete := true;
      store.AddXP(xp, Some("counting"), Some(true), today);
    }

    /** `nextRound`: the round number goes up and a new round starts. */
    method NextRound(uAnimal: Draw, uTarget: Draw)
      modifies this
      ensures round == old(round) + 1
      ensures animal == ANIMALS[RandomInt(0, |ANIMALS| - 1, uAnimal)]
      ensures targetCount == RandomInt(1, 5, uTarget) && 1 <= targetCount <= 5
      ensures fedCount == 0 && foodItems == FoodIds() && !showComplete
      ensures Valid()
    {
      round := round + 1;
      StartNewRound(uAnimal, uTarget);
    }
  }
}
