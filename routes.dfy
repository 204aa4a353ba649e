/**
 * The HTTP routes of the backend that carry decisions
 * (backend/src/routes/routes.ts): the guest video-call token request's
 * input check, the validation and defaults of space creation, and the echo
 * of a space by id. The request body arrives as parsed JSON; the clock that
 * stamps ids and dates and the token minting are inputs.
 */
module Routes {
  import opened JsBuiltins

  /**
   * A JSON value as a body field holds it after parsing, with `Missing` for
   * a field the body does not have. Objects and arrays are always truthy,
   * and their contents are never read here.
   */
  datatype Json = Missing | Null | Bool(b: bool) | Num(n: real) | Str(s: string) | Composite

  /** JavaScript truthiness: false, 0, "" , null and undefined are falsy. */
  predicate Truthy(v: Json) {
    match v
    case Missing => false
    case Null => false
    case Bool(b) => b
    case Num(n) => n != 0.0
    case Str(s) => s != ""
    case Composite => true
  }

  /** An Express reply: a status with either a value or an `{ error }` body. */
  datatype Reply<T> = Success(status: int, value: T) | Failure(status: int, error: string)

  const ChannelRequired := "channelName required"
  const TokenFailed := "failed_to_generate_token"
  const FieldsRequired := "name and created_by are required"
  const CreateFailed := "failed_to_create_space"

  /** What the token minting did for the requested channel. */
  datatype Minting = Minted(token: string) | MintThrew

  /**
   * POST /guest/agora-token. `body` is None when the request has no parsed
   * body, so destructuring it throws and the catch answers 500; otherwise it
   * is the `channelName` field.
   */
  function AgoraToken(body: Option<Json>, mint: Minting): (r: Reply<string>)
    ensures r.Success? <==> body.Some? && Truthy(body.value) && mint.Minted?
    ensures r.Success? ==> r.status == 200 && r.value == mint.token
    ensures r.Failure? && r.status == 400 <==> body.Some? && !Truthy(body.value)
    ensures r.Failure? ==> (r.status == 400 && r.error == ChannelRequired) || (r.status == 500 && r.error == TokenFailed)
  {
    if body.None? then Failure(500, TokenFailed)
    else if !Truthy(body.value) then Failure(400, ChannelRequired)
    else match mint
      case Minted(token) => Success(200, token)
      case MintThrew => Failure(500, TokenFailed)
  }

  /** The fields of a POST /spaces body. */
  datatype SpaceRequest = SpaceRequest(name: Json, description: Json, isPublic: Json, createdBy: Json)

  /** The created space as the reply's body carries it. */
  datatype Space = Space(
    id: string, name: Json, description: Json, createdBy: Json,
    createdAt: string, isPublic: bool, participantCount: nat)

  /**
   * POST /spaces: a falsy name or creator is refused with 400; otherwise a
   * space is built from the body with the description defaulting to "",
   * public unless the body says exactly `false`, and nobody in it. `id` and
   * `createdAt` are the clock's readings.
   */
  function CreateSpace(body: Option<SpaceRequest>, id: string, createdAt: string): (r: Reply<Space>)
    ensures r.Success? <==> body.Some? && Truthy(body.value.name) && Truthy(body.value.createdBy)
    ensures body.Some? && r.Failure? ==> r == Failure(400, FieldsRequired)
    ensures body.None? ==> r == Failure(500, CreateFailed)
    ensures r.Success? ==>
      var space := r.value;
      r.status == 201 && space.id == id && space.createdAt == createdAt
      && space.name == body.value.name && space.createdBy == body.value.createdBy
      && Truthy(space.name) && Truthy(space.createdBy)
      && (space.isPublic <==> body.value.isPublic != Bool(false))
      && (Truthy(body.value.description) ==> space.description == body.value.description)
      && (!Truthy(body.value.description) ==> space.description == Str(""))
      && space.participantCount == 0
  {
    match body
    case None => Failure(500, CreateFailed)
    case Some(req) =>
      if !Truthy(req.name) || !Truthy(req.createdBy) then
        Failure(400, FieldsRequired)
      else
        Success(201, Space(
          id, req.name, if Truthy(req.description) then req.description else Str(""),
          req.createdBy, createdAt, req.isPublic != Bool(false), 0))
  }

  /** The body that describes an existing space. */
  function Resubmission(space: Space): SpaceRequest {
    SpaceRequest(space.name, space.description, Bool(space.isPublic), space.createdBy)
  }

  /**
   * Creation is a fixpoint on its own output: submitting a created space's
   * fields again, at the same clock reading, yields the same space.
   */
  lemma CreateSpaceIsStable(body: Option<SpaceRequest>, id: string, createdAt: string)
    requires CreateSpace(body, id, createdAt).Success?
    ensures CreateSpace(Some(Resubmission(CreateSpace(body, id, createdAt).value)), id, createdAt)
         == CreateSpace(body, id, createdAt)
  {
  }

  /** Only a literal `false` makes a space private: a missing field, null, 0 or "" leave it public. */
  lemma OnlyFalseMakesPrivate(req: SpaceRequest, id: string, createdAt: string)
    requires Truthy(req.name) && Truthy(req.createdBy)
    ensures req.isPublic in {Missing, Null, Num(0.0), Str(""), Bool(true)} ==>
      CreateSpace(Some(req), id, createdAt).value.isPublic
    ensures req.isPublic == Bool(false) ==> !CreateSpace(Some(req), id, createdAt).value.isPublic
  {
  }

  /** GET /spaces/:id's reply: the id echoed under a derived name. */
  datatype SpaceSummary = SpaceSummary(
    id: string, name: string, description: string, createdBy: string, createdAt: string, isPublic: bool)

  const SpaceNamePrefix := "Space "

  function GetSpace(id: string, createdAt: string): (r: SpaceSummary)
    ensures r.id == id && r.createdAt == createdAt
    ensures r.name == SpaceNamePrefix + id
    ensures r.description == "A virtual space for collaboration"
    ensures r.isPublic && r.createdBy == "system"
  {
    SpaceSummary(id, SpaceNamePrefix + id, "A virtual space for collaboration", "system", createdAt, true)
  }

  /** The name given to a space identifies it: two ids with the same name are the same id. */
  lemma SpaceNameIdentifiesSpace(id1: string, id2: string, createdAt: string)
    requires GetSpace(id1, createdAt).name == GetSpace(id2, createdAt).name
    ensures id1 == id2
  {
    assert id1 == GetSpace(id1, createdAt).name[|SpaceNamePrefix|..];
  }
}
