/** The part of a route handler's `NextResponse` that the model keeps: status and body fields. */
module Http {
  import opened Basics

  datatype Response<B> =
    | Ok(body: B)
    | BadRequest(error: string)
    | ServerError(error: string, details: Option<string>)
  {
    function Status(): (code: nat)
      ensures code == 200 <==> Ok?
      ensures code == 400 <==> BadRequest?
      ensures code == 500 <==> ServerError?
    {
      match this
      case Ok(_) => 200
      case BadRequest(_) => 400
      case ServerError(_, _) => 500
    }
  }
}
