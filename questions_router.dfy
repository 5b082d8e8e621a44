/**
 * The question API's resolvers (`get-all`, `get-by-id`, `create`) over an
 * in-memory question store that stands for the database table. The session
 * token is the `next-auth.session-token` cookie of the call, `None` when the
 * call has none; the id of a new record is a parameter, as the database
 * generates it.
 */
module QuestionRouter {
  import opened Wrappers
  import opened Zod
  import opened QuestionValidator

  /** A stored poll question. */
  datatype PollQuestion = PollQuestion(id: string, question: string, options: seq<OptionInput>, ownerToken: string)

  /** What a client sends to `create`; the form sends its options along. */
  datatype CreateRequest = CreateRequest(question: string, options: seq<OptionInput>)

  /** The input `create` sees once its schema `z.object({ question })` has parsed the request. */
  datatype CreateInput = CreateInput(question: string)

  /** `get-by-id`'s answer: the question found, if any, and whether the caller owns it. */
  datatype ByIdView = ByIdView(question: Option<PollQuestion>, isOwner: bool)

  /**
   * `create`'s answer: the new record; the `{ error }` value the resolver
   * returns; or the input-validation failure raised before the resolver runs.
   */
  datatype CreateOutcome = Created(record: PollQuestion) | Refused(error: string) | BadRequest(issues: seq<Issue>)

  const NotAuthorized: string := "Not authorized"

  /** JavaScript truthiness of an optional string: present and not empty. */
  predicate Truthy(token: Option<string>) {
    token.Some? && token.value != ""
  }

  /**
   * `create`'s input schema: the question text must be 5 to 500 characters
   * long; keys the schema does not name, such as `options`, are dropped.
   */
  function ParseCreateInput(request: CreateRequest): (r: ParseResult<CreateInput>)
    ensures r.Success? <==> QuestionTextOk(request.question)
    ensures r.Success? ==> r.value == CreateInput(request.question)
    ensures r.Failure? ==> r.issues != [] && forall k :: 0 <= k < |r.issues| ==> r.issues[k].path == QuestionPath
  {
    var issues := QuestionIssues(request.question);
    if issues == [] then Success(CreateInput(request.question)) else Failure(issues)
  }

  /** The position of the first record with this id, or `|records|` when there is none. */
  function FirstIndex(records: seq<PollQuestion>, id: string): (k: nat)
    ensures k <= |records|
    ensures k < |records| ==> records[k].id == id
    ensures forall j :: 0 <= j < k ==> records[j].id != id
  {
    if records == [] then 0
    else if records[0].id == id then 0
    else 1 + FirstIndex(records[1..], id)
  }

  /** `findFirst({ where: { id } })`: the first record with this id, or nothing. */
  function FindFirst(records: seq<PollQuestion>, id: string): (r: Option<PollQuestion>)
    ensures r.None? <==> forall j :: 0 <= j < |records| ==> records[j].id != id
    ensures r.Some? ==> r.value.id == id && r.value in records
    ensures r.Some? ==>
      exists k :: 0 <= k < |records| && records[k] == r.value && forall j :: 0 <= j < k ==> records[j].id != id
  {
    var k := FirstIndex(records, id);
    if k < |records| then Some(records[k]) else None
  }

  /** `question?.ownerToken`: `undefined` when no question was found. */
  function OwnerTokenOf(question: Option<PollQuestion>): Option<string> {
    match question
    case Some(q) => Some(q.ownerToken)
    case None => None
  }

  /** Every stored record has an empty options list. */
  predicate AllOptionsEmpty(records: seq<PollQuestion>) {
    forall j :: 0 <= j < |records| ==> records[j].options == []
  }

  /** Every stored record is owned by a non-empty session token. */
  predicate AllOwned(records: seq<PollQuestion>) {
    forall j :: 0 <= j < |records| ==> records[j].ownerToken != ""
  }

  /** No stored record has this id. */
  predicate FreshId(records: seq<PollQuestion>, id: string) {
    forall j :: 0 <= j < |records| ==> records[j].id != id
  }

  /**
   * Appending a record keeps the first match of every id that already had one;
   * an id that had none now finds the new record if it has that id.
   */
  lemma {:induction false} FindFirstAppend(records: seq<PollQuestion>, q: PollQuestion, id: string)
    ensures FindFirst(records + [q], id)
         == if FindFirst(records, id).Some? then FindFirst(records, id)
            else if q.id == id then Some(q) else None
  {
    FirstIndexAppend(records, q, id);
  }

  lemma {:induction false} FirstIndexAppend(records: seq<PollQuestion>, q: PollQuestion, id: string)
    ensures FirstIndex(records + [q], id)
         == if FirstIndex(records, id) < |records| then FirstIndex(records, id)
            else if q.id == id then |records| else |records| + 1
  {
    if records != [] {
      assert (records + [q])[0] == records[0];
      assert (records + [q])[1..] == records[1..] + [q];
      FirstIndexAppend(records[1..], q, id);
    }
  }

  /** The question table, as the resolvers see it. */
  class QuestionStore {
    var records: seq<PollQuestion>

    constructor (initial: seq<PollQuestion>)
      ensures records == initial
    {
      records := initial;
    }

    /** `get-all`: every stored record, in store order, and nothing else. */
    function GetAll(): (r: seq<PollQuestion>)
      reads this
      ensures r == records
    {
      records
    }

    /**
     * `get-by-id`: the first record with the id, or none; `isOwner` is the
     * strict equality of `question?.ownerToken` with the session token, so it
     * holds for a found record exactly when the session token is its owner's,
     * and for a missing record exactly when there is no session token.
     */
    function GetById(id: string, sessionToken: Option<string>): (r: ByIdView)
      reads this
      ensures r.question.None? <==> forall j :: 0 <= j < |records| ==> records[j].id != id
      ensures r.question.Some? ==> r.question.value.id == id && r.question.value == records[FirstIndex(records, id)]
      ensures r.question.Some? ==> (r.isOwner <==> sessionToken == Some(r.question.value.ownerToken))
      ensures r.question.None? ==> (r.isOwner <==> sessionToken.None?)
    {
      var question := FindFirst(records, id);
      ByIdView(question, OwnerTokenOf(question) == sessionToken)
    }

    /**
     * `create`: a request whose question text breaks the input schema is
     * refused before the resolver runs; a call without a truthy session token
     * gets the "Not authorized" error; otherwise exactly one record is
     * appended, holding the question text, no options whatever the client sent,
     * and the session token as its owner. No existing record changes; a record
     * created under a fresh id is owned by its creator's session token and by no
     * other.
     */
    method Create(request: CreateRequest, sessionToken: Option<string>, id: string) returns (outcome: CreateOutcome)
      modifies this
      ensures !QuestionTextOk(request.question) ==>
        outcome == BadRequest(QuestionIssues(request.question)) && records == old(records)
      ensures QuestionTextOk(request.question) && !Truthy(sessionToken) ==>
        outcome == Refused(NotAuthorized) && records == old(records)
      ensures outcome.Created? <==> QuestionTextOk(request.question) && Truthy(sessionToken)
      ensures outcome.Created? ==>
        && outcome.record == PollQuestion(id, request.question, [], sessionToken.value)
        && records == old(records) + [outcome.record]
      ensures forall qid, s :: old(FindFirst(records, qid)).Some? ==> GetById(qid, s) == old(GetById(qid, s))
      ensures outcome.Created? && FreshId(old(records), id) ==>
        GetById(id, sessionToken) == ByIdView(Some(outcome.record), true)
      ensures outcome.Created? && FreshId(old(records), id) ==>
        forall s :: GetById(id, s).isOwner <==> s == sessionToken
      ensures AllOptionsEmpty(old(records)) ==> AllOptionsEmpty(records)
      ensures AllOwned(old(records)) ==> AllOwned(records)
    {
      var parsed := ParseCreateInput(request);
      if parsed.Failure? {
        return BadRequest(parsed.issues);
      }
      var input := parsed.value;
      if !Truthy(sessionToken) {
        return Refused(NotAuthorized);
      }
      var record := PollQuestion(id, input.question, [], sessionToken.value);
      ghost var before := records;
      records := records + [record];
      outcome := Created(record);
      forall qid | FindFirst(before, qid).Some?
        ensures FindFirst(records, qid) == FindFirst(before, qid)
      {
        FindFirstAppend(before, record, qid);
      }
      FindFirstAppend(before, record, id);
    }
  }

}
