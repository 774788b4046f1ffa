/** The uniform HTTP response body of the backend (db/schemas/response.py). */
module Response {
  import opened Wrappers

  /** `ResponseModel[T]`: a status code, a status message and an optional payload (`None` by default). */
  datatype ResponseModel<T> = ResponseModel(statusCode: int, statusMessage: string, data: Option<T> := None)

  /** `resp_200`: the success response; every argument is optional. */
  function Resp200<T>(code: int := 200, message: string := "SUCCESS", data: Option<T> := None): (r: ResponseModel<T>)
    ensures r.statusCode == code && r.statusMessage == message && r.data == data
  {
    ResponseModel(statusCode := code, statusMessage := message, data := data)
  }

  /** `resp_500`: the failure response; every argument is optional. */
  function Resp500<T>(code: int := 500, message: string := "BAD REQUEST", data: Option<T> := None): (r: ResponseModel<T>)
    ensures r.statusCode == code && r.statusMessage == message && r.data == data
  {
    ResponseModel(statusCode := code, statusMessage := message, data := data)
  }

  /** Called with no argument, `resp_200` answers 200 / SUCCESS with no data. */
  lemma Resp200Defaults<T>()
    ensures Resp200<T>() == ResponseModel(200, "SUCCESS", None)
  {
  }

  /** Called with no argument, `resp_500` answers 500 / BAD REQUEST with no data. */
  lemma Resp500Defaults<T>()
    ensures Resp500<T>() == ResponseModel(500, "BAD REQUEST", None)
  {
  }

  /** The two constructors build the same record from the same arguments: they differ only in their defaults. */
  lemma SameShape<T>(code: int, message: string, data: Option<T>)
    ensures Resp200(code, message, data) == Resp500(code, message, data)
    ensures Resp200<T>() != Resp500<T>()
  {
  }
}
