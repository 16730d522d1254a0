/**
 * The hero picker page: two pick lists (at most four allies, five enemies, no
 * repeats), a rule-based integer score for every hero of the selected role that
 * nobody has picked, the stable descending sort of the scores and the top ten,
 * the search filter and the colour of a score.
 *
 * `Picker` holds the page's state fields; each handler is a method that replaces
 * them. The hero list is the parsed hero file, given to the constructor.
 */
module HeroPicker {
  import opened Strings
  import opened Seqs

  datatype Hero = Hero(
    name: String,
    teamfight: int,
    initiate: int,
    saveHeal: int,
    stunDisable: int,
    pushing: int,
    escape: int,
    laneDominance: int,
    scaling: int,
    nuke: int,
    frontline: int,
    bkbCancel: int,
    roles: seq<String>)

  /** `{ ...hero, score, reasons }` */
  datatype Recommended = Recommended(hero: Hero, score: int, reasons: seq<String>)

  datatype Side = Ally | Enemy

  const MaxAllies: nat := 4
  const MaxEnemies: nat := 5
  const MaxRecommendations: nat := 10
  const BaseScore: int := 20
  const Support: String := "support"
  const CoreRoles: seq<String> := ["carry", "mid"]

  // ---- team totals ----

  /** `heroes.reduce((sum, h) => sum + stat(h), 0)` */
  function TeamSum(heroes: seq<Hero>, stat: Hero -> int): int {
    if heroes == [] then 0 else TeamSum(heroes[..|heroes| - 1], stat) + stat(heroes[|heroes| - 1])
  }

  /** The team sums the rules look at. */
  datatype Needs = Needs(
    alliedTeamfight: int, alliedStun: int, alliedSave: int, alliedInitiate: int,
    alliedPushing: int, alliedFrontline: int,
    enemyTeamfight: int, enemyInitiate: int, enemyPushing: int)

  /** `h => picks.includes(h.name)` */
  function PickedIn(picks: seq<String>): Hero -> bool {
    (h: Hero) => h.name in picks
  }

  function TeamNeeds(heroes: seq<Hero>, allied: seq<String>, enemy: seq<String>): Needs {
    var a := Filter(heroes, PickedIn(allied));
    var e := Filter(heroes, PickedIn(enemy));
    Needs(TeamSum(a, (h: Hero) => h.teamfight), TeamSum(a, (h: Hero) => h.stunDisable),
          TeamSum(a, (h: Hero) => h.saveHeal),
          TeamSum(a, (h: Hero) => h.initiate), TeamSum(a, (h: Hero) => h.pushing), TeamSum(a, (h: Hero) => h.frontline),
          TeamSum(e, (h: Hero) => h.teamfight), TeamSum(e, (h: Hero) => h.initiate), TeamSum(e, (h: Hero) => h.pushing))
  }

  // ---- the score of one hero ----

  /** What one rule does: the points it adds and the reasons it pushes. */
  datatype Effect = Effect(points: int, reasons: seq<String>)

  const NoEffect := Effect(0, [])

  /** `Good stun/disable (2/3)` and the like. */
  function OutOfThree(what: String, n: nat): String {
    what + " (" + NatToString(n) + "/3)"
  }

  /** Rule: the allied team is short of stuns and disables. */
  function StunRule(hero: Hero, role: String, needs: Needs): Effect {
    if needs.alliedStun < 4 then Effect(hero.stunDisable * 8, if hero.stunDisable >= 2 then [OutOfThree("Good stun/disable", hero.stunDisable)] else [])
    else NoEffect
  }

  /** Rule: the allied team is short of initiation. */
  function InitiateRule(hero: Hero, role: String, needs: Needs): Effect {
    if needs.alliedInitiate < 5 then Effect(hero.initiate * 7, if hero.initiate >= 2 then [OutOfThree("Strong initiation", hero.initiate)] else [])
    else NoEffect
  }

  /** Rule: a support, and the allied team is short of saves and heals. */
  function SaveRule(hero: Hero, role: String, needs: Needs): Effect {
    if needs.alliedSave < 4 && role == Support then Effect(hero.saveHeal * 6, if hero.saveHeal >= 2 then [OutOfThree("Good save/heal", hero.saveHeal)] else [])
    else NoEffect
  }

  /** Rule: the allied team is short of pushing. */
  function PushRule(hero: Hero, role: String, needs: Needs): Effect {
    if needs.alliedPushing < 8 then Effect(hero.pushing * 5, if hero.pushing >= 3 then [OutOfThree("Excellent pusher", hero.pushing)] else [])
    else NoEffect
  }

  /** Rule: the allied team is short of frontline. */
  function FrontlineRule(hero: Hero, role: String, needs: Needs): Effect {
    if needs.alliedFrontline < 6 then Effect(hero.frontline * 6, if hero.frontline >= 2 then [OutOfThree("Tanky frontline", hero.frontline)] else [])
    else NoEffect
  }

  /** Rule: the allied team is short of teamfight. */
  function TeamfightRule(hero: Hero, role: String, needs: Needs): Effect {
    if needs.alliedTeamfight < 6 then Effect(hero.teamfight * 7, if hero.teamfight >= 2 then [OutOfThree("Strong teamfight", hero.teamfight)] else [])
    else NoEffect
  }

  /** Rule: an escape against a team that initiates. */
  function EscapeInitiatorsRule(hero: Hero, role: String, needs: Needs): Effect {
    if needs.enemyInitiate >= 8 && hero.escape >= 2 then Effect(hero.escape * 6, [OutOfThree("Good escape vs enemy initiation", hero.escape)]) else NoEffect
  }

  /** Rule: disables against a teamfight team. */
  function DisableTeamfightRule(hero: Hero, role: String, needs: Needs): Effect {
    if needs.enemyTeamfight >= 8 && hero.stunDisable >= 2 then Effect(hero.stunDisable * 5, ["Disables counter their teamfight"]) else NoEffect
  }

  /** Rule: teamfight against a pushing team. */
  function StopPushRule(hero: Hero, role: String, needs: Needs): Effect {
    if needs.enemyPushing >= 10 && hero.teamfight >= 2 then Effect(hero.teamfight * 5, ["Teamfight stops their push"]) else NoEffect
  }

  /** Rule: a BKB-piercing ability, always. */
  function BkbRule(hero: Hero, role: String, needs: Needs): Effect {
    if hero.bkbCancel >= 1 then Effect(10, ["BKB-piercing ability"]) else NoEffect
  }

  /** Rule: scaling, for carry and mid. */
  function ScalingRule(hero: Hero, role: String, needs: Needs): Effect {
    if role in CoreRoles && hero.scaling >= 3 then Effect(8, [OutOfThree("Scales well", hero.scaling)]) else NoEffect
  }

  /** Rule: lane dominance, always. */
  function LaneRule(hero: Hero, role: String, needs: Needs): Effect {
    if hero.laneDominance >= 3 then Effect(5, [OutOfThree("Dominates lane", hero.laneDominance)]) else NoEffect
  }

  /** The base score for fitting the role plus the points of each rule, in the order of the rules. */
  function HeroScore(hero: Hero, role: String, needs: Needs): int {
    BaseScore
    + StunRule(hero, role, needs).points + InitiateRule(hero, role, needs).points + SaveRule(hero, role, needs).points
    + PushRule(hero, role, needs).points + FrontlineRule(hero, role, needs).points
    + TeamfightRule(hero, role, needs).points
    + EscapeInitiatorsRule(hero, role, needs).points + DisableTeamfightRule(hero, role, needs).points
    + StopPushRule(hero, role, needs).points
    + BkbRule(hero, role, needs).points + ScalingRule(hero, role, needs).points + LaneRule(hero, role, needs).points
  }

  /** The reasons of each rule, in the order of the rules. */
  function HeroReasons(hero: Hero, role: String, needs: Needs): seq<String> {
    StunRule(hero, role, needs).reasons + InitiateRule(hero, role, needs).reasons + SaveRule(hero, role, needs).reasons
    + PushRule(hero, role, needs).reasons + FrontlineRule(hero, role, needs).reasons
    + TeamfightRule(hero, role, needs).reasons
    + EscapeInitiatorsRule(hero, role, needs).reasons + DisableTeamfightRule(hero, role, needs).reasons
    + StopPushRule(hero, role, needs).reasons
    + BkbRule(hero, role, needs).reasons + ScalingRule(hero, role, needs).reasons + LaneRule(hero, role, needs).reasons
  }

  /** The `.map` callback: the score and reasons built up one rule at a time. */
  method ScoreHero(hero: Hero, role: String, needs: Needs) returns (r: Recommended)
    ensures r == Recommended(hero, HeroScore(hero, role, needs), HeroReasons(hero, role, needs))
  {
    var score := 0;
    var reasons: seq<String> := [];
    score := score + BaseScore;
    score, reasons := TeamNeedsFirst(hero, role, needs, score, reasons);
    score, reasons := TeamNeedsSecond(hero, role, needs, score, reasons);
    score, reasons := CounterRules(hero, role, needs, score, reasons);
    score, reasons := BonusRules(hero, role, needs, score, reasons);
    assert [] + StunRule(hero, role, needs).reasons == StunRule(hero, role, needs).reasons;
    return Recommended(hero, score, reasons);
  }

  /** Rules 1 to 3, the allied team's stun, initiation and save/heal needs. */
  method TeamNeedsFirst(hero: Hero, role: String, needs: Needs, score0: int, reasons0: seq<String>)
    returns (score: int, reasons: seq<String>)
    ensures score == score0 + StunRule(hero, role, needs).points + InitiateRule(hero, role, needs).points + SaveRule(hero, role, needs).points
    ensures reasons == reasons0 + StunRule(hero, role, needs).reasons + InitiateRule(hero, role, needs).reasons + SaveRule(hero, role, needs).reasons
  {
    score, reasons := score0, reasons0;
    if needs.alliedStun < 4 {
      score := score + hero.stunDisable * 8;
      if hero.stunDisable >= 2 { reasons := reasons + [OutOfThree("Good stun/disable", hero.stunDisable)]; }
    }
    if needs.alliedInitiate < 5 {
      score := score + hero.initiate * 7;
      if hero.initiate >= 2 { reasons := reasons + [OutOfThree("Strong initiation", hero.initiate)]; }
    }
    if needs.alliedSave < 4 && role == Support {
      score := score + hero.saveHeal * 6;
      if hero.saveHeal >= 2 { reasons := reasons + [OutOfThree("Good save/heal", hero.saveHeal)]; }
    }
  }

  /** Rules 4 to 6, the allied team's pushing, frontline and teamfight needs. */
  method TeamNeedsSecond(hero: Hero, role: String, needs: Needs, score0: int, reasons0: seq<String>)
    returns (score: int, reasons: seq<String>)
    ensures score == score0 + PushRule(hero, role, needs).points + FrontlineRule(hero, role, needs).points + TeamfightRule(hero, role, needs).points
    ensures reasons == reasons0 + PushRule(hero, role, needs).reasons + FrontlineRule(hero, role, needs).reasons + TeamfightRule(hero, role, needs).reasons
  {
    score, reasons := score0, reasons0;
    if needs.alliedPushing < 8 {
      score := score + hero.pushing * 5;
      if hero.pushing >= 3 { reasons := reasons + [OutOfThree("Excellent pusher", hero.pushing)]; }
    }
    if needs.alliedFrontline < 6 {
      score := score + hero.frontline * 6;
      if hero.frontline >= 2 { reasons := reasons + [OutOfThree("Tanky frontline", hero.frontline)]; }
    }
    if needs.alliedTeamfight < 6 {
      score := score + hero.teamfight * 7;
      if hero.teamfight >= 2 { reasons := reasons + [OutOfThree("Strong teamfight", hero.teamfight)]; }
    }
  }

  /** Rules 7 to 9, countering the enemy team's initiation, teamfight and push. */
  method CounterRules(hero: Hero, role: String, needs: Needs, score0: int, reasons0: seq<String>)
    returns (score: int, reasons: seq<String>)
    ensures score == score0 + EscapeInitiatorsRule(hero, role, needs).points + DisableTeamfightRule(hero, role, needs).points + StopPushRule(hero, role, needs).points
    ensures reasons == reasons0 + EscapeInitiatorsRule(hero, role, needs).reasons + DisableTeamfightRule(hero, role, needs).reasons + StopPushRule(hero, role, needs).reasons
  {
    score, reasons := score0, reasons0;
    if needs.enemyInitiate >= 8 && hero.escape >= 2 {
      score := score + hero.escape * 6;
      reasons := reasons + [OutOfThree("Good escape vs enemy initiation", hero.escape)];
    }
    if needs.enemyTeamfight >= 8 && hero.stunDisable >= 2 {
      score := score + hero.stunDisable * 5;
      reasons := reasons + ["Disables counter their teamfight"];
    }
    if needs.enemyPushing >= 10 && hero.teamfight >= 2 {
      score := score + hero.teamfight * 5;
      reasons := reasons + ["Teamfight stops their push"];
    }
  }

  /** Rules 10 to 12, the BKB-piercing, core scaling and lane dominance bonuses. */
  method BonusRules(hero: Hero, role: String, needs: Needs, score0: int, reasons0: seq<String>)
    returns (score: int, reasons: seq<String>)
    ensures score == score0 + BkbRule(hero, role, needs).points + ScalingRule(hero, role, needs).points + LaneRule(hero, role, needs).points
    ensures reasons == reasons0 + BkbRule(hero, role, needs).reasons + ScalingRule(hero, role, needs).reasons + LaneRule(hero, role, needs).reasons
  {
    score, reasons := score0, reasons0;
    if hero.bkbCancel >= 1 {
      score := score + 10;
      reasons := reasons + ["BKB-piercing ability"];
    }
    if role in CoreRoles && hero.scaling >= 3 {
      score := score + 8;
      reasons := reasons + [OutOfThree("Scales well", hero.scaling)];
    }
    if hero.laneDominance >= 3 {
      score := score + 5;
      reasons := reasons + [OutOfThree("Dominates lane", hero.laneDominance)];
    }
  }

  /** With non-negative stats no rule subtracts, so the score is at least the base 20. */
  lemma ScoreAtLeastBase(hero: Hero, role: String, needs: Needs)
    requires hero.teamfight >= 0 && hero.initiate >= 0 && hero.saveHeal >= 0 && hero.stunDisable >= 0
    requires hero.pushing >= 0 && hero.escape >= 0 && hero.frontline >= 0
    ensures HeroScore(hero, role, needs) >= BaseScore
  {
  }

  /** The save/heal stat only counts when the selected role is support. */
  lemma SaveOnlyForSupport(hero: Hero, role: String, needs: Needs, saveHeal: int)
    requires role != Support
    ensures HeroScore(hero.(saveHeal := saveHeal), role, needs) == HeroScore(hero, role, needs)
  {
  }

  /** Scaling counts only through the +8 for carry and mid heroes with scaling at least 3. */
  lemma ScalingOnlyForCores(hero: Hero, role: String, needs: Needs)
    ensures HeroScore(hero, role, needs)
         == HeroScore(hero.(scaling := 0), role, needs) + (if role in CoreRoles && hero.scaling >= 3 then 8 else 0)
  {
  }

  /** A BKB-piercing ability adds exactly 10, whatever its level. */
  lemma BkbBonus(hero: Hero, role: String, needs: Needs)
    ensures hero.bkbCancel >= 1 ==> HeroScore(hero, role, needs) == HeroScore(hero.(bkbCancel := 0), role, needs) + 10
    ensures hero.bkbCancel < 1 ==> HeroScore(hero, role, needs) == HeroScore(hero.(bkbCancel := 0), role, needs)
  {
  }

  // ---- recommendations ----

  /** The heroes the page scores: the selected role, and not picked by either side. */
  function Eligible(role: String, allied: seq<String>, enemy: seq<String>): Hero -> bool {
    (hero: Hero) => hero.name !in allied && hero.name !in enemy && role in hero.roles
  }

  function Recommend(role: String, needs: Needs): Hero -> Recommended {
    hero => Recommended(hero, HeroScore(hero, role, needs), HeroReasons(hero, role, needs))
  }

  function ScoreOf(r: Recommended): int {
    r.score
  }

  /** The eligible heroes, scored, in hero-list order. */
  function ScoredHeroes(heroes: seq<Hero>, role: String, allied: seq<String>, enemy: seq<String>): seq<Recommended> {
    Map(Filter(heroes, Eligible(role, allied, enemy)), Recommend(role, TeamNeeds(heroes, allied, enemy)))
  }

  /** `.sort((a, b) => b.score - a.score).slice(0, 10)` */
  function Recommendations(heroes: seq<Hero>, role: String, allied: seq<String>, enemy: seq<String>)
    : seq<Recommended>
  {
    Take(SortDesc(ScoredHeroes(heroes, role, allied, enemy), ScoreOf), MaxRecommendations)
  }

  /** At most ten, each of the selected role, from the hero list, and picked by neither side. */
  lemma RecommendationsEligible(heroes: seq<Hero>, role: String, allied: seq<String>, enemy: seq<String>)
    ensures var r := Recommendations(heroes, role, allied, enemy);
      |r| <= MaxRecommendations
      && forall k :: 0 <= k < |r| ==>
           role in r[k].hero.roles && r[k].hero.name !in allied && r[k].hero.name !in enemy && r[k].hero in heroes
  {
    var scored := ScoredHeroes(heroes, role, allied, enemy);
    var sorted := SortDesc(scored, ScoreOf);
    var r := Recommendations(heroes, role, allied, enemy);
    var eligible := Filter(heroes, Eligible(role, allied, enemy));
    SortDescSpec(scored, ScoreOf);
    forall k | 0 <= k < |r|
      ensures role in r[k].hero.roles && r[k].hero.name !in allied && r[k].hero.name !in enemy && r[k].hero in heroes
    {
      assert r[k] == sorted[k];
      assert sorted[k] in multiset(scored);
      var i :| 0 <= i < |scored| && scored[i] == r[k];
      assert Eligible(role, allied, enemy)(eligible[i]);
      FilterMembers(heroes, Eligible(role, allied, enemy), eligible[i]);
    }
  }

  /**
   * Highest score first, equal scores in hero-list order, and no scored hero that
   * was cut scores more than one that was kept.
   */
  lemma RecommendationsOrdered(heroes: seq<Hero>, role: String, allied: seq<String>, enemy: seq<String>, v: int)
    ensures var r := Recommendations(heroes, role, allied, enemy);
      SortedDesc(r, ScoreOf)
      && IsPrefix(Filter(r, KeyIs(ScoreOf, v)), Filter(ScoredHeroes(heroes, role, allied, enemy), KeyIs(ScoreOf, v)))
  {
    var scored := ScoredHeroes(heroes, role, allied, enemy);
    var sorted := SortDesc(scored, ScoreOf);
    var r := Recommendations(heroes, role, allied, enemy);
    SortDescSpec(scored, ScoreOf);
    SortDescStable(scored, ScoreOf, v);
    FilterOfPrefix(sorted, |r|, KeyIs(ScoreOf, v));
  }

  /** The ten kept are a top ten: every hero cut scores at most every hero kept. */
  lemma RecommendationsTop(heroes: seq<Hero>, role: String, allied: seq<String>, enemy: seq<String>)
    ensures var r := Recommendations(heroes, role, allied, enemy);
      multiset(r) <= multiset(ScoredHeroes(heroes, role, allied, enemy))
      && forall x: Recommended, k :: x in multiset(ScoredHeroes(heroes, role, allied, enemy)) - multiset(r) && 0 <= k < |r|
           ==> ScoreOf(x) <= ScoreOf(r[k])
  {
    TopOfSorted(ScoredHeroes(heroes, role, allied, enemy), MaxRecommendations, ScoreOf);
  }

  /** `.map(hero => ...)` over the eligible heroes, one `ScoreHero` call each. */
  method ScoreAll(eligible: seq<Hero>, role: String, needs: Needs) returns (scored: seq<Recommended>)
    ensures scored == Map(eligible, Recommend(role, needs))
  {
    scored := [];
    var i := 0;
    while i < |eligible|
      invariant 0 <= i <= |eligible|
      invariant scored == Map(eligible[..i], Recommend(role, needs))
    {
      var r := ScoreHero(eligible[i], role, needs);
      assert eligible[..i + 1] == eligible[..i] + [eligible[i]];
      MapConcat(eligible[..i], [eligible[i]], Recommend(role, needs));
      scored := scored + [r];
      i := i + 1;
    }
    assert eligible[..i] == eligible;
  }

  // ---- score colour ----

  const ScoreGreen: String := "text-green-600 dark:text-green-400"
  const ScoreBlue: String := "text-blue-600 dark:text-blue-400"
  const ScoreYellow: String := "text-yellow-600 dark:text-yellow-400"
  const ScoreGray: String := "text-gray-600 dark:text-gray-400"

  /** `getScoreColor`: four bands split at 80, 60 and 40. */
  function ScoreColor(score: int): (r: String)
    ensures r == ScoreGreen <==> score >= 80
    ensures r == ScoreBlue <==> 60 <= score < 80
    ensures r == ScoreYellow <==> 40 <= score < 60
    ensures r == ScoreGray <==> score < 40
  {
    if score >= 80 then ScoreGreen
    else if score >= 60 then ScoreBlue
    else if score >= 40 then ScoreYellow
    else ScoreGray
  }

  /** A higher score never gets a lower band. */
  lemma ScoreColorMonotone(a: int, b: int)
    requires a <= b
    ensures ScoreColor(a) == ScoreGreen ==> ScoreColor(b) == ScoreGreen
    ensures ScoreColor(a) == ScoreBlue ==> ScoreColor(b) in {ScoreGreen, ScoreBlue}
    ensures ScoreColor(b) == ScoreGray ==> ScoreColor(a) == ScoreGray
  {
  }

  // ---- the page state ----

  /** `hero => hero.name.toLowerCase().includes(term.toLowerCase())` and unpicked. */
  function Shown(term: String, allied: seq<String>, enemy: seq<String>): Hero -> bool {
    (hero: Hero) => Contains(ToLower(hero.name), ToLower(term)) && hero.name !in allied && hero.name !in enemy
  }

  /** `h => h !== name` */
  function Other(name: String): String -> bool {
    h => h != name
  }

  predicate Distinct(s: seq<String>) {
    forall i, j :: 0 <= i < j < |s| ==> s[i] != s[j]
  }

  class Picker {
    var heroes: seq<Hero>
    var selectedRole: String
    var alliedPicks: seq<String>
    var enemyPicks: seq<String>
    var recommendations: seq<Recommended>
    var searchTerm: String
    var pickingFor: Side

    /** The caps and the no-repeat rule every handler keeps. */
    predicate Valid()
      reads this
    {
      |alliedPicks| <= MaxAllies && |enemyPicks| <= MaxEnemies && Distinct(alliedPicks) && Distinct(enemyPicks)
    }

    /** The initial state, with the loaded hero list. */
    constructor (heroes: seq<Hero>)
      ensures this.heroes == heroes && selectedRole == [] && alliedPicks == [] && enemyPicks == []
      ensures recommendations == [] && searchTerm == [] && pickingFor == Ally
      ensures Valid()
    {
      this.heroes := heroes;
      selectedRole := [];
      alliedPicks := [];
      enemyPicks := [];
      recommendations := [];
      searchTerm := [];
      pickingFor := Ally;
    }

    /** `filteredHeroes`: the search matches, case-insensitively, among the unpicked heroes. */
    function FilteredHeroes(): (r: seq<Hero>)
      reads this
      ensures forall h :: h in r <==>
        h in heroes && Contains(ToLower(h.name), ToLower(searchTerm)) && h.name !in alliedPicks && h.name !in enemyPicks
      ensures IsSubseq(r, heroes)
    {
      var r := Filter(heroes, Shown(searchTerm, alliedPicks, enemyPicks));
      FilterIsSubseq(heroes, Shown(searchTerm, alliedPicks, enemyPicks));
      assert forall h :: h in r <==> h in heroes && Shown(searchTerm, alliedPicks, enemyPicks)(h) by {
        forall h ensures h in r <==> h in heroes && Shown(searchTerm, alliedPicks, enemyPicks)(h) {
          FilterMembers(heroes, Shown(searchTerm, alliedPicks, enemyPicks), h);
        }
      }
      r
    }

    /**
     * `addPick`: the hero joins the side being picked for when it is not on that
     * list yet and the list has room; the search term is cleared either way.
     */
    method AddPick(heroName: String)
      modifies this
      ensures pickingFor == Ally && heroName !in old(alliedPicks) && |old(alliedPicks)| < MaxAllies ==>
        alliedPicks == old(alliedPicks) + [heroName] && enemyPicks == old(enemyPicks)
      ensures pickingFor == Enemy && heroName !in old(enemyPicks) && |old(enemyPicks)| < MaxEnemies ==>
        enemyPicks == old(enemyPicks) + [heroName] && alliedPicks == old(alliedPicks)
      ensures (!(pickingFor == Ally && heroName !in old(alliedPicks) && |old(alliedPicks)| < MaxAllies)
               && !(pickingFor == Enemy && heroName !in old(enemyPicks) && |old(enemyPicks)| < MaxEnemies))
        ==> alliedPicks == old(alliedPicks) && enemyPicks == old(enemyPicks)
      ensures searchTerm == []
      ensures heroes == old(heroes) && selectedRole == old(selectedRole) && pickingFor == old(pickingFor)
      ensures recommendations == old(recommendations)
      ensures old(Valid()) ==> Valid()
    {
      if pickingFor == Ally && heroName !in alliedPicks && |alliedPicks| < MaxAllies {
        alliedPicks := alliedPicks + [heroName];
      } else if pickingFor == Enemy && heroName !in enemyPicks && |enemyPicks| < MaxEnemies {
        enemyPicks := enemyPicks + [heroName];
      }
      searchTerm := [];
    }

    /** `removePick`: every occurrence of the name leaves the named list; the other is untouched. */
    method RemovePick(heroName: String, from: Side)
      modifies this
      ensures from == Ally ==> alliedPicks == Filter(old(alliedPicks), Other(heroName)) && enemyPicks == old(enemyPicks)
      ensures from == Enemy ==> enemyPicks == Filter(old(enemyPicks), Other(heroName)) && alliedPicks == old(alliedPicks)
      ensures heroName !in (if from == Ally then alliedPicks else enemyPicks)
      ensures heroes == old(heroes) && selectedRole == old(selectedRole) && pickingFor == old(pickingFor)
      ensures searchTerm == old(searchTerm) && recommendations == old(recommendations)
      ensures old(Valid()) ==> Valid()
    {
      if from == Ally {
        FilterMembers(alliedPicks, Other(heroName), heroName);
        if Distinct(alliedPicks) {
          FilterDistinct(alliedPicks, Other(heroName));
        }
        alliedPicks := Filter(alliedPicks, Other(heroName));
      } else {
        FilterMembers(enemyPicks, Other(heroName), heroName);
        if Distinct(enemyPicks) {
          FilterDistinct(enemyPicks, Other(heroName));
        }
        enemyPicks := Filter(enemyPicks, Other(heroName));
      }
    }

    /** Choosing a role, the side to pick for, or a search term. */
    method SelectRole(role: String)
      modifies this
      ensures selectedRole == role
      ensures heroes == old(heroes) && alliedPicks == old(alliedPicks) && enemyPicks == old(enemyPicks)
      ensures recommendations == old(recommendations) && searchTerm == old(searchTerm) && pickingFor == old(pickingFor)
    {
      selectedRole := role;
    }

    method PickFor(side: Side)
      modifies this
      ensures pickingFor == side
      ensures heroes == old(heroes) && alliedPicks == old(alliedPicks) && enemyPicks == old(enemyPicks)
      ensures recommendations == old(recommendations) && searchTerm == old(searchTerm) && selectedRole == old(selectedRole)
    {
      pickingFor := side;
    }

    method Search(term: String)
      modifies this
      ensures searchTerm == term
      ensures heroes == old(heroes) && alliedPicks == old(alliedPicks) && enemyPicks == old(enemyPicks)
      ensures recommendations == old(recommendations) && pickingFor == old(pickingFor) && selectedRole == old(selectedRole)
    {
      searchTerm := term;
    }

    /**
     * `analyzeTeamNeeds`: nothing happens without a selected role; otherwise the
     * eligible heroes are scored one by one, sorted and cut to ten.
     */
    method AnalyzeTeamNeeds()
      modifies this
      ensures selectedRole == [] ==> recommendations == old(recommendations)
      ensures selectedRole != [] ==> recommendations == Recommendations(heroes, selectedRole, alliedPicks, enemyPicks)
      ensures heroes == old(heroes) && selectedRole == old(selectedRole) && pickingFor == old(pickingFor)
      ensures alliedPicks == old(alliedPicks) && enemyPicks == old(enemyPicks) && searchTerm == old(searchTerm)
    {
      if selectedRole == [] {
        return;
      }
      var needs := TeamNeeds(heroes, alliedPicks, enemyPicks);
      var eligible := Filter(heroes, Eligible(selectedRole, alliedPicks, enemyPicks));
      var scored := ScoreAll(eligible, selectedRole, needs);
      recommendations := Take(SortDesc(scored, ScoreOf), MaxRecommendations);
    }
  }
}
