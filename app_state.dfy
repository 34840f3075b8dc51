/** The values the application state container holds, the device key-value
    store it mirrors them to, and each of its operations as a function from
    the state before to the state after. */
module AppState {
  import opened Wrappers
  import opened Decimal
  import opened Questions

  datatype User = User(id: string, email: string)

  datatype Settings = Settings(notifications: bool, darkMode: bool, privacy: bool)

  const DEFAULT_SETTINGS: Settings := Settings(notifications := true, darkMode := false, privacy := true)
  const GUEST_EMAIL: string := "guest"
  /** The author id a question gets when there is no user id to take. */
  const AUTHOR_FALLBACK: string := "guest"
  const GUEST_PREFIX: string := "guest_"

  /** Everything the container holds. The ledger maps a question id to the
      vote kind recorded for it. */
  datatype State = State(
    user: Option<User>,
    isGuest: bool,
    questionsAsked: int,
    supportsGiven: int,
    questions: seq<Question>,
    votedQuestions: map<string, string>,
    settings: Settings)

  /** The container before `loadData` has run. */
  const INITIAL: State := State(None, false, 0, 0, [], map[], DEFAULT_SETTINGS)

  /** A key of the device store: missing, holding a value, or holding text
      that `JSON.parse` (or reading a field of what it returned) throws on. */
  datatype Slot<T> = Absent | Held(value: T) | Corrupt

  /** The `userStats` entry; either counter may be missing from it. */
  datatype StoredStats = StoredStats(questionsAsked: Option<int>, supportsGiven: Option<int>)

  /** The device store's keys. `isGuest` is kept as raw text and never parsed. */
  datatype Store = Store(
    user: Slot<User>,
    questions: Slot<seq<Question>>,
    votedQuestions: Slot<map<string, string>>,
    userStats: Slot<StoredStats>,
    settings: Slot<Settings>,
    isGuest: Option<string>)

  const EMPTY_STORE: Store := Store(Absent, Absent, Absent, Absent, Absent, None)

  /** No key holds text that would make `loadData` throw. */
  predicate Intact(st: Store) {
    !st.user.Corrupt? && !st.questions.Corrupt? && !st.votedQuestions.Corrupt?
    && !st.userStats.Corrupt? && !st.settings.Corrupt?
  }

  /** `x || 0` for a stored counter: a missing counter reads as 0. */
  function OrZero(x: Option<int>): int {
    x.GetOr(0)
  }

  /** `loadData` reading `st`: each key present overrides the field it
      restores, in the order the source applies them; `isGuest` is only ever
      switched on, by the exact text "true"; a key that fails to parse stops
      the load (the catch), leaving the fields set before it. */
  function Load(s: State, st: Store): (r: State)
    ensures st.user.Corrupt? ==> r == s
    ensures s.isGuest ==> r.isGuest
    ensures st == EMPTY_STORE ==> r == s
  {
    if st.user.Corrupt? then s else
    var s1 := if st.user.Held? then s.(user := Some(st.user.value)) else s;
    var s2 := if st.isGuest == Some("true") then s1.(isGuest := true) else s1;
    if st.questions.Corrupt? then s2 else
    var s3 := if st.questions.Held? then s2.(questions := st.questions.value) else s2;
    if st.votedQuestions.Corrupt? then s3 else
    var s4 := if st.votedQuestions.Held? then s3.(votedQuestions := st.votedQuestions.value) else s3;
    if st.userStats.Corrupt? then s4 else
    var s5 := if st.userStats.Held?
      then s4.(questionsAsked := OrZero(st.userStats.value.questionsAsked),
               supportsGiven := OrZero(st.userStats.value.supportsGiven))
      else s4;
    if st.settings.Corrupt? then s5 else
    if st.settings.Held? then s5.(settings := st.settings.value) else s5
  }

  /** `login`: a user with the given email and an id made from the clock; the
      password is not looked at. */
  function Login(s: State, email: string, password: string, now: nat): (r: State)
    ensures !r.isGuest && r.user.Some? && r.user.value.email == email
  {
    s.(user := Some(User(NatToString(now), email)), isGuest := false)
  }

  /** The guest user `loginAsGuest` builds from one clock reading. */
  function GuestUser(now: nat): (u: User)
    ensures GUEST_PREFIX <= u.id && u.email == GUEST_EMAIL
  {
    User(GUEST_PREFIX + NatToString(now), GUEST_EMAIL)
  }

  /** `loginAsGuest`, with the in-memory user built from the clock reading `now`. */
  function LoginAsGuest(s: State, now: nat): (r: State)
    ensures r.isGuest && r.user.Some? && r.user.value.email == GUEST_EMAIL
  {
    s.(isGuest := true, user := Some(GuestUser(now)))
  }

  /** `updateSettings`: the whole record is replaced. */
  function UpdateSettings(s: State, newSettings: Settings): (r: State)
    ensures r.settings == newSettings && r.questions == s.questions && r.votedQuestions == s.votedQuestions
  {
    s.(settings := newSettings)
  }

  /** `user?.id || 'guest'`. */
  function AuthorId(user: Option<User>): (r: string)
    ensures r != ""
    ensures user.Some? && user.value.id != "" ==> r == user.value.id
    ensures user.None? || user.value.id == "" ==> r == AUTHOR_FALLBACK
  {
    if user.Some? && user.value.id != "" then user.value.id else AUTHOR_FALLBACK
  }

  /** The record `addQuestion` builds, with the clock reading `now` for its id
      and `createdAt` for `new Date().toISOString()`. */
  function NewQuestion(s: State, question: string, answer: string, now: nat, createdAt: string): (q: Question)
    ensures q.supports == 0 && q.dontSupports == 0 && IsDigits(q.id)
    ensures q.question == question && q.answer == answer && q.createdAt == createdAt
  {
    Question(NatToString(now), question, answer, 0, 0, createdAt, AuthorId(s.user))
  }

  /** `addQuestion`: the new record goes in front and one more question is
      counted. */
  function AddQuestion(s: State, question: string, answer: string, now: nat, createdAt: string): (r: State)
    ensures |r.questions| == |s.questions| + 1 && r.questionsAsked == s.questionsAsked + 1
  {
    s.(questions := [NewQuestion(s, question, answer, now, createdAt)] + s.questions,
       questionsAsked := s.questionsAsked + 1)
  }

  /** The guard `if (votedQuestions[questionId])`: the id holds a truthy vote
      kind, that is, a non-empty string. */
  predicate AlreadyVoted(ledger: map<string, string>, questionId: string): (b: bool)
    ensures b ==> questionId in ledger && ledger[questionId] != ""
  {
    questionId in ledger && ledger[questionId] != ""
  }

  /** `voteQuestion`. */
  function Vote(s: State, questionId: string, voteType: string): (r: State)
    ensures questionId in r.votedQuestions
    ensures |r.questions| == |s.questions| && r.questionsAsked == s.questionsAsked
  {
    if AlreadyVoted(s.votedQuestions, questionId) then s
    else s.(questions := Tally(s.questions, questionId, voteType),
            votedQuestions := s.votedQuestions[questionId := voteType],
            supportsGiven := if voteType == SUPPORT then s.supportsGiven + 1 else s.supportsGiven)
  }

  // ---------------------------------------------------------------------
  // Voting

  /** A vote on an id that already holds a vote changes nothing. */
  lemma VoteWhenVoted(s: State, questionId: string, voteType: string)
    requires AlreadyVoted(s.votedQuestions, questionId)
    ensures Vote(s, questionId, voteType) == s
  {
  }

  /** A fresh vote records its kind under the id, whether or not a question
      carries that id, and leaves every other ledger entry as it was. */
  lemma VoteRecords(s: State, questionId: string, voteType: string)
    requires !AlreadyVoted(s.votedQuestions, questionId)
    ensures var r := Vote(s, questionId, voteType).votedQuestions;
      && r.Keys == s.votedQuestions.Keys + {questionId}
      && r[questionId] == voteType
      && forall id :: id in s.votedQuestions && id != questionId ==> r[id] == s.votedQuestions[id]
  {
  }

  /** A fresh vote keeps the list's length and order: questions with the
      voted id gain one support or one don't-support by kind and nothing
      else changes in them; other questions are untouched. */
  lemma VoteUpdatesList(s: State, questionId: string, voteType: string, i: nat)
    requires !AlreadyVoted(s.votedQuestions, questionId)
    requires i < |s.questions|
    ensures var r := Vote(s, questionId, voteType).questions;
      var q := s.questions[i];
      && |r| == |s.questions|
      && r[i].supports == q.supports + (if q.id == questionId && voteType == SUPPORT then 1 else 0)
      && r[i].dontSupports == q.dontSupports + (if q.id == questionId && voteType == DONT_SUPPORT then 1 else 0)
      && r[i].(supports := q.supports, dontSupports := q.dontSupports) == q
  {
    TallyAt(s.questions, questionId, voteType, i);
  }

  /** `supportsGiven` grows by one exactly for a fresh support vote; voting
      never touches `questionsAsked`, the session or the settings. */
  lemma VoteCounters(s: State, questionId: string, voteType: string)
    ensures var r := Vote(s, questionId, voteType);
      && r.supportsGiven == s.supportsGiven
           + (if !AlreadyVoted(s.votedQuestions, questionId) && voteType == SUPPORT then 1 else 0)
      && r.questionsAsked == s.questionsAsked
      && r.user == s.user && r.isGuest == s.isGuest && r.settings == s.settings
  {
  }

  /** Voting twice on one id has the effect of the first vote alone, as long
      as the first kind is one the guard sees (any non-empty string). */
  lemma VoteIdempotent(s: State, questionId: string, first: string, second: string)
    requires first != ""
    ensures Vote(Vote(s, questionId, first), questionId, second) == Vote(s, questionId, first)
  {
  }

  // ---------------------------------------------------------------------
  // Asking, session and settings

  /** `addQuestion` puts a fresh record with zero tallies in front of the old
      list and counts it; the ledger and `supportsGiven` stay. */
  lemma AddQuestionEffect(s: State, question: string, answer: string, now: nat, createdAt: string)
    ensures var r := AddQuestion(s, question, answer, now, createdAt);
      && |r.questions| == |s.questions| + 1
      && r.questions[1..] == s.questions
      && r.questions[0].supports == 0 && r.questions[0].dontSupports == 0
      && r.questions[0].question == question && r.questions[0].answer == answer
      && r.questions[0].id == NatToString(now) && IsDigits(r.questions[0].id)
      && r.questions[0].userId == AuthorId(s.user) && r.questions[0].createdAt == createdAt
      && r.questionsAsked == s.questionsAsked + 1
      && r.(questions := s.questions, questionsAsked := s.questionsAsked) == s
  {
  }

  /** `login` leaves a signed-in, non-guest session with the given email. */
  lemma LoginEffect(s: State, email: string, password: string, now: nat)
    ensures var r := Login(s, email, password, now);
      && r.user.Some? && r.user.value.email == email && IsDigits(r.user.value.id)
      && !r.isGuest
      && r.(user := s.user, isGuest := s.isGuest) == s
  {
  }

  /** `loginAsGuest` leaves a guest session whose email is "guest" and whose
      id is "guest_" followed by digits. */
  lemma LoginAsGuestEffect(s: State, now: nat)
    ensures var r := LoginAsGuest(s, now);
      && r.isGuest && r.user.Some? && r.user.value.email == GUEST_EMAIL
      && GUEST_PREFIX <= r.user.value.id && IsDigits(r.user.value.id[|GUEST_PREFIX|..])
      && r.(user := s.user, isGuest := s.isGuest) == s
  {
    assert LoginAsGuest(s, now).user.value.id[|GUEST_PREFIX|..] == NatToString(now);
  }

  /** Guest users built from different clock readings differ. */
  lemma GuestUserInjective(now: nat, later: nat)
    ensures GuestUser(now) == GuestUser(later) <==> now == later
  {
    if GuestUser(now) == GuestUser(later) {
      var a, b := GuestUser(now).id, GuestUser(later).id;
      assert a[|GUEST_PREFIX|..] == NatToString(now);
      assert b[|GUEST_PREFIX|..] == NatToString(later);
      NatToStringInjective(now, later);
    }
  }

  /** Two clock readings a millisecond apart give two different guests. */
  lemma GuestReadingsApart()
    ensures GuestUser(1000) != GuestUser(1001)
  {
    GuestUserInjective(1000, 1001);
  }

  /** `updateSettings` replaces the whole settings record and nothing else. */
  lemma UpdateSettingsEffect(s: State, newSettings: Settings)
    ensures var r := UpdateSettings(s, newSettings);
      r.settings == newSettings && r.(settings := s.settings) == s
  {
  }

  // ---------------------------------------------------------------------
  // Loading

  /** `loadData` sets `isGuest` only when the stored text is exactly "true"
      (and the user key parsed), and never clears it. */
  lemma LoadGuestFlag(s: State, st: Store)
    ensures Load(s, st).isGuest == (s.isGuest || (!st.user.Corrupt? && st.isGuest == Some("true")))
  {
  }

  /** Stored counters are restored with a missing one read as 0, once every
      key before them parsed. */
  lemma LoadStats(s: State, st: Store, stats: StoredStats)
    requires !st.user.Corrupt? && !st.questions.Corrupt? && !st.votedQuestions.Corrupt?
    requires st.userStats == Held(stats)
    ensures Load(s, st).questionsAsked == (if stats.questionsAsked.Some? then stats.questionsAsked.value else 0)
    ensures Load(s, st).supportsGiven == (if stats.supportsGiven.Some? then stats.supportsGiven.value else 0)
  {
  }

  /** With every key intact, each field comes from its key when the key is
      present, and otherwise keeps its value. */
  lemma LoadIntact(s: State, st: Store)
    requires Intact(st)
    ensures var r := Load(s, st);
      && r.user == (if st.user.Held? then Some(st.user.value) else s.user)
      && r.isGuest == (s.isGuest || st.isGuest == Some("true"))
      && r.questions == (if st.questions.Held? then st.questions.value else s.questions)
      && r.votedQuestions == (if st.votedQuestions.Held? then st.votedQuestions.value else s.votedQuestions)
      && r.settings == (if st.settings.Held? then st.settings.value else s.settings)
      && r.questionsAsked ==
           (if st.userStats.Held? then OrZero(st.userStats.value.questionsAsked) else s.questionsAsked)
      && r.supportsGiven ==
           (if st.userStats.Held? then OrZero(st.userStats.value.supportsGiven) else s.supportsGiven)
  {
  }

  /** Loading an intact store a second time changes nothing, so a container
      that mirrors its store still mirrors it after `loadData`. */
  lemma LoadIdempotent(st: Store)
    requires Intact(st)
    ensures Load(Load(INITIAL, st), st) == Load(INITIAL, st)
  {
  }

  /** A key that fails to parse ends the load: the keys before it have been
      applied, the keys after it are not, and the fields they restore keep
      their values. */
  lemma LoadStopsAtCorrupt(s: State, st: Store)
    ensures var r := Load(s, st);
      !st.user.Corrupt? ==>
        r.user == (if st.user.Held? then Some(st.user.value) else s.user)
    ensures var r := Load(s, st);
      !st.user.Corrupt? && !st.questions.Corrupt? ==>
        r.questions == (if st.questions.Held? then st.questions.value else s.questions)
    ensures var r := Load(s, st);
      !st.user.Corrupt? && !st.questions.Corrupt? && !st.votedQuestions.Corrupt? ==>
        r.votedQuestions == (if st.votedQuestions.Held? then st.votedQuestions.value else s.votedQuestions)
    ensures var r := Load(s, st);
      !st.user.Corrupt? && !st.questions.Corrupt? && !st.votedQuestions.Corrupt? && !st.userStats.Corrupt? ==>
        && r.questionsAsked ==
             (if st.userStats.Held? then OrZero(st.userStats.value.questionsAsked) else s.questionsAsked)
        && r.supportsGiven ==
             (if st.userStats.Held? then OrZero(st.userStats.value.supportsGiven) else s.supportsGiven)
    ensures var r := Load(s, st);
      st.questions.Corrupt? ==>
        r.(user := s.user, isGuest := s.isGuest) == s
    ensures var r := Load(s, st);
      !st.questions.Corrupt? && st.votedQuestions.Corrupt? ==>
        r.(user := s.user, isGuest := s.isGuest, questions := s.questions) == s
    ensures var r := Load(s, st);
      !st.questions.Corrupt? && !st.votedQuestions.Corrupt? && st.userStats.Corrupt? ==>
        r.(user := s.user, isGuest := s.isGuest, questions := s.questions, votedQuestions := s.votedQuestions) == s
    ensures var r := Load(s, st);
      !st.questions.Corrupt? && !st.votedQuestions.Corrupt? && !st.userStats.Corrupt? && st.settings.Corrupt? ==>
        r.settings == s.settings
  {
  }

  // ---------------------------------------------------------------------
  // Runs of operations

  datatype Action =
    | DoLogin(email: string, password: string, now: nat)
    | DoLoginAsGuest(now: nat)
    | DoAddQuestion(question: string, answer: string, now: nat, createdAt: string)
    | DoVote(questionId: string, voteType: string)
    | DoUpdateSettings(newSettings: Settings)

  function Step(s: State, a: Action): State {
    match a
    case DoLogin(email, password, now) => Login(s, email, password, now)
    case DoLoginAsGuest(now) => LoginAsGuest(s, now)
    case DoAddQuestion(question, answer, now, createdAt) => AddQuestion(s, question, answer, now, createdAt)
    case DoVote(questionId, voteType) => Vote(s, questionId, voteType)
    case DoUpdateSettings(newSettings) => UpdateSettings(s, newSettings)
  }

  /** The state after the actions, in order. */
  function Run(s: State, actions: seq<Action>): State
    decreases |actions|
  {
    if actions == [] then s else Run(Step(s, actions[0]), actions[1..])
  }

  function CountAsks(actions: seq<Action>): nat {
    if actions == [] then 0
    else (if actions[0].DoAddQuestion? then 1 else 0) + CountAsks(actions[1..])
  }

  function CountSupportVotes(actions: seq<Action>): nat {
    if actions == [] then 0
    else (if actions[0].DoVote? && actions[0].voteType == SUPPORT then 1 else 0)
         + CountSupportVotes(actions[1..])
  }

  /** The ids of the votes among the actions, in order. */
  function VotedIds(actions: seq<Action>): seq<string> {
    if actions == [] then []
    else (if actions[0].DoVote? then [actions[0].questionId] else []) + VotedIds(actions[1..])
  }

  predicate Distinct(ids: seq<string>) {
    forall i, j :: 0 <= i < j < |ids| ==> ids[i] != ids[j]
  }

  /** Counter consistency: `questionsAsked` counts the questions asked,
      whatever votes come between them. */
  lemma {:induction false} RunCountsQuestions(s: State, actions: seq<Action>)
    ensures Run(s, actions).questionsAsked == s.questionsAsked + CountAsks(actions)
    decreases |actions|
  {
    if actions != [] {
      RunCountsQuestions(Step(s, actions[0]), actions[1..]);
    }
  }

  /** Counter consistency: when the votes are on distinct ids none of which
      already holds a vote, `supportsGiven` counts the support votes. */
  lemma {:induction false} RunCountsSupports(s: State, actions: seq<Action>)
    requires Distinct(VotedIds(actions))
    requires forall id :: id in VotedIds(actions) ==> !AlreadyVoted(s.votedQuestions, id)
    ensures Run(s, actions).supportsGiven == s.supportsGiven + CountSupportVotes(actions)
    decreases |actions|
  {
    if actions != [] {
      var a, rest := actions[0], actions[1..];
      var ids := VotedIds(actions);
      var head := if a.DoVote? then [a.questionId] else [];
      assert ids == head + VotedIds(rest);
      var t := Step(s, a);
      forall id | id in VotedIds(rest) ensures !AlreadyVoted(t.votedQuestions, id) {
        var k :| 0 <= k < |VotedIds(rest)| && VotedIds(rest)[k] == id;
        assert ids[|head| + k] == id;
        assert id in ids;
        assert !AlreadyVoted(s.votedQuestions, id);
        if a.DoVote? {
          assert ids[0] == a.questionId;
          assert a.questionId != id;
          assert t.votedQuestions == s.votedQuestions || t.votedQuestions == s.votedQuestions[a.questionId := a.voteType];
        } else {
          assert t.votedQuestions == s.votedQuestions;
        }
      }
      forall i, j | 0 <= i < j < |VotedIds(rest)| ensures VotedIds(rest)[i] != VotedIds(rest)[j] {
        assert ids[|head| + i] == VotedIds(rest)[i] && ids[|head| + j] == VotedIds(rest)[j];
      }
      if a.DoVote? {
        assert a.questionId in ids;
      }
      RunCountsSupports(t, rest);
    }
  }
}
