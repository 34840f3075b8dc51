/** A community question with its AI answer and vote tallies, and the update a
    fresh vote applies to the question list (the `questions.map(...)` step of
    `voteQuestion`). */
module Questions {

  /** The two vote kinds the vote buttons pass; any other string is a vote
      that is recorded but moves no tally. */
  const SUPPORT: string := "support"
  const DONT_SUPPORT: string := "dontSupport"

  datatype Question = Question(
    id: string,
    question: string,
    answer: string,
    supports: int,
    dontSupports: int,
    createdAt: string,
    userId: string)

  /** The record a vote of kind `kind` turns `q` into. */
  function Bump(q: Question, kind: string): (r: Question)
    ensures r.supports == q.supports + (if kind == SUPPORT then 1 else 0)
    ensures r.dontSupports == q.dontSupports + (if kind == DONT_SUPPORT then 1 else 0)
    ensures r.(supports := q.supports, dontSupports := q.dontSupports) == q
  {
    q.(supports := if kind == SUPPORT then q.supports + 1 else q.supports,
       dontSupports := if kind == DONT_SUPPORT then q.dontSupports + 1 else q.dontSupports)
  }

  /** The list after a vote of kind `kind` on `questionId`: every question
      with that id (by strict equality) is bumped, in place. */
  function Tally(qs: seq<Question>, questionId: string, kind: string): (r: seq<Question>)
    ensures |r| == |qs|
  {
    if qs == [] then []
    else [if qs[0].id == questionId then Bump(qs[0], kind) else qs[0]] + Tally(qs[1..], questionId, kind)
  }

  /** A vote keeps the list's length and order; the question with the voted id
      gains one support or one don't-support according to the kind, keeps
      every other field, and every other question is left as it was. */
  lemma {:induction false} TallyAt(qs: seq<Question>, questionId: string, kind: string, i: nat)
    requires i < |qs|
    ensures var r := Tally(qs, questionId, kind);
      && r[i].supports == qs[i].supports + (if qs[i].id == questionId && kind == SUPPORT then 1 else 0)
      && r[i].dontSupports == qs[i].dontSupports + (if qs[i].id == questionId && kind == DONT_SUPPORT then 1 else 0)
      && r[i].(supports := qs[i].supports, dontSupports := qs[i].dontSupports) == qs[i]
    decreases i
  {
    if 0 < i {
      TallyAt(qs[1..], questionId, kind, i - 1);
    }
  }

  /** A vote on an id that no question carries, or of a kind other than the
      two known ones, leaves the list unchanged. */
  lemma {:induction false} TallyNoEffect(qs: seq<Question>, questionId: string, kind: string)
    requires (forall q :: q in qs ==> q.id != questionId) || (kind != SUPPORT && kind != DONT_SUPPORT)
    ensures Tally(qs, questionId, kind) == qs
    decreases |qs|
  {
    if qs != [] {
      assert qs[0] in qs;
      assert forall q :: q in qs[1..] ==> q in qs;
      TallyNoEffect(qs[1..], questionId, kind);
    }
  }
}
