/** Record shapes shared by the routers (backend/models.py): the status column of
    a submission and the HTTP errors the routes raise. */
module Records {
  import Evaluation

  /** The `status` column of a submission. */
  datatype Status = Pending | Running | Passed | Failed | Error | Completed

  /** The status stored for an evaluator verdict. */
  function StatusOf(v: Evaluation.Verdict): (s: Status)
    ensures s == Passed <==> v == Evaluation.Passed
    ensures s == Failed <==> v == Evaluation.Failed
    ensures s == Error <==> v == Evaluation.Error
  {
    match v
    case Passed => Passed
    case Failed => Failed
    case Error => Error
  }

  /** An `HTTPException` (or FastAPI's 422 for a query parameter out of bounds). */
  datatype HttpError = HttpError(statusCode: nat, detail: string)
}
