/** The application state container as an object: its fields are the values
    the source keeps in React state, and `stored` is the device key-value
    store those values are written to. */
module Context {
  import opened Wrappers
  import opened Decimal
  import opened Questions
  import opened Trending
  import opened AppState

  class AppContext {
    var user: Option<User>
    var isGuest: bool
    var questionsAsked: int
    var supportsGiven: int
    var questions: seq<Question>
    var votedQuestions: map<string, string>
    var settings: Settings

    /** The device store: what it held when the provider mounted, with every
        write made since. */
    ghost var stored: Store

    /** The container's fields as one value. */
    function Current(): State
      reads this
    {
      State(user, isGuest, questionsAsked, supportsGiven, questions, votedQuestions, settings)
    }

    /** Restarting the app on the store would bring back exactly this state:
        no key is unreadable and loading it into a fresh container yields the
        current fields. */
    ghost predicate Mirrors()
      reads this
    {
      Intact(stored) && Load(INITIAL, stored) == Current()
    }

    /** A freshly mounted provider, on a device store holding `device`. */
    constructor (ghost device: Store)
      ensures Current() == INITIAL && stored == device
      ensures device == EMPTY_STORE ==> Mirrors()
    {
      user, isGuest := None, false;
      questionsAsked, supportsGiven := 0, 0;
      questions, votedQuestions := [], map[];
      settings := DEFAULT_SETTINGS;
      stored := device;
    }

    /** `loadData`: `st` is what the six `getItem` calls read, which is what
        the device store holds. */
    method LoadData(st: Store)
      requires st == stored
      modifies this
      ensures Current() == Load(old(Current()), stored)
      ensures stored == old(stored)
      ensures old(Current()) == INITIAL && Intact(stored) ==> Mirrors()
      ensures old(Mirrors()) ==> Mirrors()
    {
      if Intact(st) {
        LoadIdempotent(st);
      }
      if st.user.Corrupt? { return; }
      if st.user.Held? { user := Some(st.user.value); }
      if st.isGuest == Some("true") { isGuest := true; }
      if st.questions.Corrupt? { return; }
      if st.questions.Held? { questions := st.questions.value; }
      if st.votedQuestions.Corrupt? { return; }
      if st.votedQuestions.Held? { votedQuestions := st.votedQuestions.value; }
      if st.userStats.Corrupt? { return; }
      if st.userStats.Held? {
        var stats := st.userStats.value;
        questionsAsked := OrZero(stats.questionsAsked);
        supportsGiven := OrZero(stats.supportsGiven);
      }
      if st.settings.Corrupt? { return; }
      if st.settings.Held? { settings := st.settings.value; }
    }

    /** `login`: the password is ignored; the id is the clock reading `now`. */
    method Login(email: string, password: string, now: nat)
      modifies this
      ensures Current() == AppState.Login(old(Current()), email, password, now)
      ensures stored == old(stored).(user := Held(User(NatToString(now), email)), isGuest := Some("false"))
      ensures old(Mirrors()) ==> Mirrors()
    {
      var userData := User(NatToString(now), email);
      user := Some(userData);
      isGuest := false;
      stored := stored.(user := Held(userData));
      stored := stored.(isGuest := Some("false"));
      if old(Mirrors()) {
        LoadIntact(INITIAL, old(stored));
        LoadIntact(INITIAL, stored);
      }
    }

    /** `loginAsGuest` with one clock reading for both the session and the
        store: the corrected form, which keeps the store in step. */
    method LoginAsGuest(now: nat)
      modifies this
      ensures Current() == AppState.LoginAsGuest(old(Current()), now)
      ensures stored == old(stored).(isGuest := Some("true"), user := Held(GuestUser(now)))
      ensures old(Mirrors()) ==> Mirrors()
    {
      isGuest := true;
      user := Some(GuestUser(now));
      stored := stored.(isGuest := Some("true"));
      stored := stored.(user := Held(GuestUser(now)));
      if old(Mirrors()) {
        LoadIntact(INITIAL, old(stored));
        LoadIntact(INITIAL, stored);
      }
    }

    /** `loginAsGuest` as written: the session's guest id and the stored one
        come from two clock readings, `now` and `later`, with a store write
        in between; the store then brings back the session only when the two
        readings agree. */
    method LoginAsGuestAsWritten(now: nat, later: nat)
      modifies this
      ensures Current() == AppState.LoginAsGuest(old(Current()), now)
      ensures stored == old(stored).(isGuest := Some("true"), user := Held(GuestUser(later)))
      ensures old(Mirrors()) ==> (Mirrors() <==> now == later)
    {
      isGuest := true;
      user := Some(GuestUser(now));
      stored := stored.(isGuest := Some("true"));
      stored := stored.(user := Held(GuestUser(later)));
      if old(Mirrors()) {
        LoadIntact(INITIAL, old(stored));
        LoadIntact(INITIAL, stored);
        GuestUserInjective(now, later);
      }
    }

    /** `addQuestion`, with the clock reading `now` for the id and `createdAt`
        for the timestamp. */
    method AddQuestion(question: string, answer: string, now: nat, createdAt: string)
      modifies this
      ensures Current() == AppState.AddQuestion(old(Current()), question, answer, now, createdAt)
      ensures stored == old(stored).(questions := Held(questions),
                                     userStats := Held(StoredStats(Some(questionsAsked), Some(supportsGiven))))
      ensures old(Mirrors()) ==> Mirrors()
    {
      var newQuestion := NewQuestion(Current(), question, answer, now, createdAt);
      var updatedQuestions := [newQuestion] + questions;
      questions := updatedQuestions;
      questionsAsked := questionsAsked + 1;
      stored := stored.(questions := Held(updatedQuestions));
      stored := stored.(userStats := Held(StoredStats(Some(questionsAsked), Some(supportsGiven))));
      if old(Mirrors()) {
        LoadIntact(INITIAL, old(stored));
        LoadIntact(INITIAL, stored);
      }
    }

    /** `voteQuestion`: nothing happens when the id already holds a vote;
        otherwise the tallies, the ledger and `supportsGiven` are updated and
        all three are written to the store. */
    method VoteQuestion(questionId: string, voteType: string)
      modifies this
      ensures Current() == Vote(old(Current()), questionId, voteType)
      ensures AlreadyVoted(old(votedQuestions), questionId) ==> stored == old(stored)
      ensures !AlreadyVoted(old(votedQuestions), questionId) ==>
        stored == old(stored).(questions := Held(questions), votedQuestions := Held(votedQuestions),
                               userStats := Held(StoredStats(Some(questionsAsked), Some(supportsGiven))))
      ensures old(Mirrors()) ==> Mirrors()
    {
      if AlreadyVoted(votedQuestions, questionId) {
        return;
      }
      var updatedQuestions := Tally(questions, questionId, voteType);
      questions := updatedQuestions;
      votedQuestions := votedQuestions[questionId := voteType];
      if voteType == SUPPORT {
        supportsGiven := supportsGiven + 1;
      }
      stored := stored.(questions := Held(updatedQuestions));
      stored := stored.(votedQuestions := Held(votedQuestions));
      stored := stored.(userStats := Held(StoredStats(Some(questionsAsked), Some(supportsGiven))));
      if old(Mirrors()) {
        LoadIntact(INITIAL, old(stored));
        LoadIntact(INITIAL, stored);
      }
    }

    /** `updateSettings`: the whole record is replaced and stored. */
    method UpdateSettings(newSettings: Settings)
      modifies this
      ensures Current() == AppState.UpdateSettings(old(Current()), newSettings)
      ensures stored == old(stored).(settings := Held(newSettings))
      ensures old(Mirrors()) ==> Mirrors()
    {
      settings := newSettings;
      stored := stored.(settings := Held(newSettings));
      if old(Mirrors()) {
        LoadIntact(INITIAL, old(stored));
        LoadIntact(INITIAL, stored);
      }
    }

    /** `getTrendingQuestions`: at most ten questions of the list, most
        supported first, ties in list order; the list itself is not touched. */
    method GetTrendingQuestions() returns (r: seq<Question>)
      ensures r == Top(questions)
      ensures |r| == if |questions| < TRENDING_SIZE then |questions| else TRENDING_SIZE
      ensures NonIncreasing(r)
      ensures multiset(r) <= multiset(questions)
    {
      r := Top(questions);
      TopShape(questions);
    }
  }
}
