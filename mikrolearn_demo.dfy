/**
 * The interactive product demo: a three-step wizard (onboarding, skill
 * selection, daily feed) whose whole state lives in one mounted component.
 *
 * The wizard is modelled twice, in the usual way: `State` and `Apply` are the
 * specification (one UI event at a time, on values), and `DemoWizard` is the
 * component itself, a class whose fields are its state and whose methods are
 * its handlers, each proved to move its fields exactly as `Apply` says.
 * The lemmas about `Apply` and `Run` carry the properties of the wizard over
 * any sequence of events.
 */
module MikrolearnDemo {

  /** The three panels of the wizard, in the order the user meets them. */
  datatype Step = Onboarding | Skills | Feed

  /** Position of a step along the only path the wizard offers. */
  function Rank(st: Step): (r: nat)
    ensures r <= 2
    ensures st == Onboarding <==> r == 0
    ensures st == Feed <==> r == 2
  {
    match st
    case Onboarding => 0
    case Skills => 1
    case Feed => 2
  }

  /** The component's state; `isOpen` is the host page's visibility prop. */
  datatype State = State(
    isOpen: bool,
    step: Step,
    skills: seq<string>,
    newSkill: string,
    progress: nat,
    shared: bool)

  /** Cards read today, as the component initialises it. */
  const InitialProgress: nat := 2

  /** The page mounts the demo closed, in the onboarding step. */
  function Initial(): (s: State)
    ensures !s.isOpen && s.step == Onboarding && s.skills == [] && s.newSkill == ""
    ensures s.progress == InitialProgress && !s.shared
  {
    State(false, Onboarding, [], "", InitialProgress, false)
  }

  predicate NoDuplicates(s: seq<string>) {
    forall i, j :: 0 <= i < j < |s| ==> s[i] != s[j]
  }

  /** The state every reachable wizard is in. */
  predicate Inv(s: State) {
    && NoDuplicates(s.skills)
    && "" !in s.skills
    && s.progress == InitialProgress
    && (s.step == Feed ==> |s.skills| > 0)
  }

  /**
   * The add-skill handler: the pending input is appended and cleared only
   * when it is non-empty and not already a selected skill; otherwise nothing
   * changes, and a duplicate stays in the input box.
   */
  function AddPendingSkill(s: State): (r: State)
    ensures (r != s) <==> (s.newSkill != "" && s.newSkill !in s.skills)
    ensures r != s ==> r.skills == s.skills + [s.newSkill] && r.newSkill == ""
    ensures r == s.(skills := r.skills, newSkill := r.newSkill)
    ensures |s.skills| <= |r.skills| <= |s.skills| + 1 && r.skills[..|s.skills|] == s.skills
    ensures forall x :: x in r.skills <==> x in s.skills || (x == s.newSkill && x != "")
    ensures NoDuplicates(s.skills) ==> NoDuplicates(r.skills)
    ensures "" !in s.skills ==> "" !in r.skills
  {
    if s.newSkill != "" && s.newSkill !in s.skills then
      s.(skills := s.skills + [s.newSkill], newSkill := "")
    else
      s
  }

  /** The key-press handler of the skill input: only Enter adds the skill. */
  function KeyPress(s: State, key: string): (r: State)
    ensures key == "Enter" ==> r == AddPendingSkill(s)
    ensures key != "Enter" ==> r == s
  {
    if key == "Enter" then AddPendingSkill(s) else s
  }

  /** A user or host event delivered to the wizard. */
  datatype Event =
    | Open                      // the host page sets isOpen
    | Close                     // the close button calls onClose
    | TypeSkill(text: string)   // onChange of the skill input
    | ClickAddSkill             // the "Add Skill" button
    | PressKey(key: string)     // onKeyPress of the skill input
    | ContinueWithLinkedIn      // the onboarding step's button
    | FinishSetup               // the skills step's "Finish Setup" button
    | ShareDemo                 // the feed's "Share Mikrolearn" button

  /**
   * Whether the control that receives `e` is on screen and enabled. Nothing
   * is rendered while the demo is closed; each step renders only its own
   * controls; "Finish Setup" is disabled while no skill is selected; the share
   * button is replaced by a thank-you note once `shared` holds.
   */
  function Enabled(s: State, e: Event): (b: bool)
    ensures b && e != Open ==> s.isOpen
    ensures b && (e == FinishSetup || e == ClickAddSkill || e.TypeSkill? || e.PressKey?) ==> s.step == Skills
    ensures b && e == FinishSetup ==> |s.skills| > 0
    ensures b && e == ShareDemo ==> s.step == Feed && !s.shared
    ensures b && e == ContinueWithLinkedIn ==> s.step == Onboarding
  {
    match e
    case Open => true
    case Close => s.isOpen
    case TypeSkill(_) => s.isOpen && s.step == Skills
    case ClickAddSkill => s.isOpen && s.step == Skills
    case PressKey(_) => s.isOpen && s.step == Skills
    case ContinueWithLinkedIn => s.isOpen && s.step == Onboarding
    case FinishSetup => s.isOpen && s.step == Skills && |s.skills| > 0
    case ShareDemo => s.isOpen && s.step == Feed && !s.shared
  }

  /** One event: a control that is not there cannot be used, so nothing changes. */
  function Apply(s: State, e: Event): (r: State)
    ensures !Enabled(s, e) ==> r == s
    ensures r.progress == s.progress
    ensures Rank(s.step) <= Rank(r.step)
    ensures |s.skills| <= |r.skills| && r.skills[..|s.skills|] == s.skills
    ensures s.shared ==> r.shared
    ensures r.isOpen != s.isOpen ==> r == s.(isOpen := r.isOpen)
  {
    if !Enabled(s, e) then s
    else match e
      case Open => s.(isOpen := true)
      case Close => s.(isOpen := false)
      case TypeSkill(text) => s.(newSkill := text)
      case ClickAddSkill => AddPendingSkill(s)
      case PressKey(key) => KeyPress(s, key)
      case ContinueWithLinkedIn => s.(step := Skills)
      case FinishSetup => s.(step := Feed)
      case ShareDemo => s.(shared := true)
  }

  function Run(s: State, events: seq<Event>): (r: State)
    decreases |events|
  {
    if events == [] then s else Run(Apply(s, events[0]), events[1..])
  }

  // ---------------------------------------------------------------------
  // Derived display: the feed, its stars and the learning stats.

  datatype FeedCard = FeedCard(
    id: nat,
    title: string,
    content: string,
    category: string,
    unlocked: bool,
    readTime: string,
    rating: nat)

  /**
   * `skills[i] || fallback`: the i-th skill when there is one and it is not
   * the empty string (which is falsy), else the fixed category.
   */
  function CategoryOr(skills: seq<string>, i: nat, fallback: string): (c: string)
    ensures i < |skills| && skills[i] != "" ==> c == skills[i]
    ensures !(i < |skills| && skills[i] != "") ==> c == fallback
  {
    if i < |skills| && skills[i] != "" then skills[i] else fallback
  }

  /** The five cards as written in the component, before the first two are relabelled. */
  const ProductCard: FeedCard := FeedCard(1, "AI in Product Management: 2025 Trends",
    "Product teams using AI-powered analytics see 34% faster decision-making. Key trends: predictive user behavior, automated A/B testing, and AI-driven roadmap prioritization...",
    "Product Management", true, "60 sec", 5)
  const DesignCard: FeedCard := FeedCard(2, "UX Design Systems at Scale",
    "Companies with mature design systems ship features 40% faster. Essential components: token architecture, component libraries, and cross-platform consistency guidelines...",
    "UX Design", true, "45 sec", 4)
  const AgileCard: FeedCard := FeedCard(3, "Agile vs DevOps: Integration Strategies",
    "Teams combining Agile and DevOps practices reduce deployment time by 60%. Key integration points: continuous feedback loops, automated testing, and cross-functional collaboration...",
    "Development", true, "55 sec", 5)
  const DataOpsCard: FeedCard := FeedCard(4, "DataOps Best Practices for 2025",
    "Unlock this premium content to learn about modern data pipeline strategies...",
    "Data Science", false, "50 sec", 0)
  const GrowthCard: FeedCard := FeedCard(5, "Growth PM Framework: Metrics That Matter",
    "Unlock this premium content to discover growth metrics frameworks...",
    "Growth", false, "65 sec", 0)

  /** The five cards of the daily feed; only the first two categories depend on the skills. */
  function FeedCards(skills: seq<string>): (cards: seq<FeedCard>)
    ensures |cards| == 5
    ensures forall k :: 0 <= k < |cards| ==> cards[k].id == k + 1
    ensures forall k :: 0 <= k < |cards| ==> (cards[k].unlocked <==> k < 3)
    ensures forall k :: 0 <= k < |cards| ==> (cards[k].rating > 0 <==> cards[k].unlocked)
    ensures cards[0].category == CategoryOr(skills, 0, "Product Management")
    ensures cards[1].category == CategoryOr(skills, 1, "UX Design")
    ensures cards[2].category == "Development"
    ensures cards[3].category == "Data Science"
    ensures cards[4].category == "Growth"
  {
    [ ProductCard.(category := CategoryOr(skills, 0, ProductCard.category)),
      DesignCard.(category := CategoryOr(skills, 1, DesignCard.category)),
      AgileCard, DataOpsCard, GrowthCard ]
  }

  /**
   * The star row of a card: absent unless the card is unlocked and rated,
   * otherwise five stars of which star i is filled exactly when i < rating.
   */
  function Stars(card: FeedCard): (row: seq<bool>)
    ensures row == [] <==> !(card.unlocked && card.rating > 0)
    ensures row != [] ==> |row| == 5 && forall i :: 0 <= i < 5 ==> (row[i] <==> i < card.rating)
  {
    if card.unlocked && card.rating > 0 then seq(5, i => i < card.rating) else []
  }

  /** Number of filled stars in a row. */
  function Filled(row: seq<bool>): (n: nat)
    ensures n <= |row|
  {
    if row == [] then 0 else (if row[0] then 1 else 0) + Filled(row[1..])
  }

  /** The "Friends invited" statistic. */
  function FriendsInvited(shared: bool): (n: nat)
    ensures n <= 1
    ensures n == 1 <==> shared
  {
    if shared then 1 else 0
  }

  // ---------------------------------------------------------------------
  // Properties of the specification.

  lemma ApplyPreservesInv(s: State, e: Event)
    requires Inv(s)
    ensures Inv(Apply(s, e))
  {
  }

  /** No duplicate or empty skill, constant progress, and no feed without skills, after any events. */
  lemma {:induction false} RunPreservesInv(s: State, events: seq<Event>)
    requires Inv(s)
    ensures Inv(Run(s, events))
    decreases |events|
  {
    if events != [] {
      ApplyPreservesInv(s, events[0]);
      RunPreservesInv(Apply(s, events[0]), events[1..]);
    }
  }

  lemma {:induction false} ReachableInv(events: seq<Event>)
    ensures Inv(Run(Initial(), events))
  {
    RunPreservesInv(Initial(), events);
  }

  /**
   * One event moves the step forward by at most one place, and only by its
   * own button: Continue from onboarding, Finish Setup from the skills step
   * with at least one skill selected.
   */
  lemma StepOnlyForward(s: State, e: Event)
    ensures Rank(s.step) <= Rank(Apply(s, e).step) <= Rank(s.step) + 1
    ensures Apply(s, e).step != s.step ==>
      || (s.step == Onboarding && Apply(s, e).step == Skills && e == ContinueWithLinkedIn)
      || (s.step == Skills && Apply(s, e).step == Feed && e == FinishSetup && |s.skills| > 0)
  {
  }

  /** Skills are only ever appended: earlier selections keep their place. */
  lemma SkillsOnlyGrow(s: State, e: Event)
    ensures |s.skills| <= |Apply(s, e).skills|
    ensures Apply(s, e).skills[..|s.skills|] == s.skills
  {
  }

  /**
   * Over any sequence of events the step never goes back, the skills list
   * keeps every earlier entry in its first-insertion position, and sharing
   * stays done.
   */
  lemma {:induction false} RunMonotone(s: State, events: seq<Event>)
    ensures Rank(s.step) <= Rank(Run(s, events).step)
    ensures |s.skills| <= |Run(s, events).skills|
    ensures Run(s, events).skills[..|s.skills|] == s.skills
    ensures s.shared ==> Run(s, events).shared
    decreases |events|
  {
    if events != [] {
      var t := Apply(s, events[0]);
      StepOnlyForward(s, events[0]);
      SkillsOnlyGrow(s, events[0]);
      RunMonotone(t, events[1..]);
      var u := Run(t, events[1..]);
      assert u.skills[..|s.skills|] == u.skills[..|t.skills|][..|s.skills|];
    }
  }

  /** A key press adds a skill exactly when the key is Enter; any other key changes nothing. */
  lemma PressKeyIsAddOnEnter(s: State, key: string)
    ensures key == "Enter" ==> Apply(s, PressKey(key)) == Apply(s, ClickAddSkill)
    ensures key != "Enter" ==> Apply(s, PressKey(key)) == s
  {
  }

  /** Adding the same input twice in a row has the effect of adding it once. */
  lemma AddSkillIdempotent(s: State)
    ensures AddPendingSkill(AddPendingSkill(s)) == AddPendingSkill(s)
  {
  }

  /** Closing leaves every field but visibility alone, so reopening resumes the same wizard. */
  lemma CloseThenReopenKeepsState(s: State)
    requires s.isOpen
    ensures Apply(s, Close) == s.(isOpen := false)
    ensures Apply(Apply(s, Close), Open) == s
  {
  }

  /** Sharing twice is sharing once, and the invite count shows one friend, not two. */
  lemma ShareIdempotent(s: State)
    requires s.isOpen && s.step == Feed
    ensures Apply(s, ShareDemo).shared
    ensures Apply(Apply(s, ShareDemo), ShareDemo) == Apply(s, ShareDemo)
    ensures FriendsInvited(Apply(Apply(s, ShareDemo), ShareDemo).shared) == 1
  {
  }

  /**
   * In every reachable state the two personalised cards show the first two
   * selected skills when there are that many, and the fixed categories
   * otherwise.
   */
  lemma FeedCategoriesFollowSkills(s: State)
    requires Inv(s)
    ensures |s.skills| > 0 ==> FeedCards(s.skills)[0].category == s.skills[0]
    ensures |s.skills| == 0 ==> FeedCards(s.skills)[0].category == "Product Management"
    ensures |s.skills| > 1 ==> FeedCards(s.skills)[1].category == s.skills[1]
    ensures |s.skills| <= 1 ==> FeedCards(s.skills)[1].category == "UX Design"
  {
  }

  /** A row whose first k stars are filled and the rest empty has k filled stars. */
  lemma {:induction false} FilledPrefix(row: seq<bool>, k: nat)
    requires k <= |row|
    requires forall i :: 0 <= i < |row| ==> (row[i] <==> i < k)
    ensures Filled(row) == k
    decreases |row|
  {
    if row != [] {
      FilledPrefix(row[1..], if k == 0 then 0 else k - 1);
    }
  }

  /** A shown star row has exactly `rating` filled stars. */
  lemma FilledStarsIsRating(card: FeedCard)
    requires card.unlocked && 0 < card.rating <= 5
    ensures Filled(Stars(card)) == card.rating
  {
    FilledPrefix(Stars(card), card.rating);
  }

  /** The feed shows five, four and five filled stars on the open cards and none on the locked ones. */
  lemma FeedStars(skills: seq<string>)
    ensures Filled(Stars(FeedCards(skills)[0])) == 5
    ensures Filled(Stars(FeedCards(skills)[1])) == 4
    ensures Filled(Stars(FeedCards(skills)[2])) == 5
    ensures Stars(FeedCards(skills)[3]) == [] && Stars(FeedCards(skills)[4]) == []
  {
    var cards := FeedCards(skills);
    FilledStarsIsRating(cards[0]);
    FilledStarsIsRating(cards[1]);
    FilledStarsIsRating(cards[2]);
  }

  /** Worked example: with skills ["Data Science", "UX Design"] the first two cards are relabelled. */
  lemma ExampleFeed()
    ensures FeedCards(["Data Science", "UX Design"])[0].category == "Data Science"
    ensures FeedCards(["Data Science", "UX Design"])[1].category == "UX Design"
    ensures FeedCards(["Data Science", "UX Design"])[2].category == "Development"
  {
  }

  /** Worked example: the demo walked through to the feed, with a duplicate entry kept in the input. */
  lemma ExampleWalkthrough()
    ensures Run(Initial(), [Open, ContinueWithLinkedIn, TypeSkill("UX"), PressKey("Enter"),
                            TypeSkill("UX"), ClickAddSkill, FinishSetup])
         == State(true, Feed, ["UX"], "UX", InitialProgress, false)
    ensures Run(Initial(), [Open, FinishSetup, ContinueWithLinkedIn, FinishSetup]).step == Skills
  {
  }

  // ---------------------------------------------------------------------
  // The component: its state variables and its handlers.

  class DemoWizard {
    var isOpen: bool
    var step: Step
    var skills: seq<string>
    var newSkill: string
    var progress: nat
    var shared: bool

    function Snapshot(): State
      reads this
    {
      State(isOpen, step, skills, newSkill, progress, shared)
    }

    ghost predicate Valid()
      reads this
    {
      Inv(Snapshot())
    }

    constructor ()
      ensures Snapshot() == Initial() && Valid()
    {
      isOpen := false;
      step := Onboarding;
      skills := [];
      newSkill := "";
      progress := InitialProgress;
      shared := false;
    }

    /** The host page opens the demo. */
    method Open()
      modifies this
      ensures Snapshot() == Apply(old(Snapshot()), Event.Open)
      ensures old(Valid()) ==> Valid()
    {
      isOpen := true;
    }

    /** The close button: hides the demo and keeps everything else. */
    method Close()
      modifies this
      ensures Snapshot() == Apply(old(Snapshot()), Event.Close)
      ensures old(Valid()) ==> Valid()
    {
      if isOpen {
        isOpen := false;
      }
    }

    /** onChange of the skill input. */
    method TypeSkill(text: string)
      modifies this
      ensures Snapshot() == Apply(old(Snapshot()), Event.TypeSkill(text))
      ensures old(Valid()) ==> Valid()
    {
      if isOpen && step == Skills {
        newSkill := text;
      }
    }

    /** The add-skill handler itself, also reached from the Enter key. */
    method AddSkill()
      modifies this
      ensures Snapshot() == AddPendingSkill(old(Snapshot()))
      ensures old(Valid()) ==> Valid()
    {
      if newSkill != "" && newSkill !in skills {
        skills := skills + [newSkill];
        newSkill := "";
      }
    }

    /** The "Add Skill" button. */
    method ClickAddSkill()
      modifies this
      ensures Snapshot() == Apply(old(Snapshot()), Event.ClickAddSkill)
      ensures old(Valid()) ==> Valid()
    {
      if isOpen && step == Skills {
        AddSkill();
      }
    }

    /** The key-press handler of the skill input. */
    method HandleKeyPress(key: string)
      modifies this
      ensures Snapshot() == Apply(old(Snapshot()), PressKey(key))
      ensures old(Valid()) ==> Valid()
    {
      if isOpen && step == Skills {
        if key == "Enter" {
          AddSkill();
        }
      }
    }

    /** "Continue with LinkedIn". */
    method ContinueWithLinkedIn()
      modifies this
      ensures Snapshot() == Apply(old(Snapshot()), Event.ContinueWithLinkedIn)
      ensures old(Valid()) ==> Valid()
    {
      if isOpen && step == Onboarding {
        step := Skills;
      }
    }

    /** "Finish Setup", disabled while no skill is selected. */
    method FinishSetup()
      modifies this
      ensures Snapshot() == Apply(old(Snapshot()), Event.FinishSetup)
      ensures old(Valid()) ==> Valid()
    {
      if isOpen && step == Skills && |skills| > 0 {
        step := Feed;
      }
    }

    /** "Share Mikrolearn", shown only until the first share. */
    method Share()
      modifies this
      ensures Snapshot() == Apply(old(Snapshot()), ShareDemo)
      ensures old(Valid()) ==> Valid()
    {
      if isOpen && step == Feed && !shared {
        shared := true;
      }
    }
  }
}
