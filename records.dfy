/** The records the front end receives from the backend, as the components read them. */
module Records {

  /** A user as returned by `GET /api/auth/me`, `POST /api/auth/login` and `GET /api/users`. */
  datatype User = User(id: string, username: string, role: string)

  /** A job card as listed by `GET /api/jobs`; `id` is the document's `_id`. */
  datatype Job = Job(id: string, jobId: string, customer: string, quantity: int, defect: string, status: string)

  /** The two status values the job form offers. */
  const InProcess: string := "In Process"
  const Done: string := "Done"

  /**
   * The status badge colour both job screens use: "success" for "Done", "warning" for every
   * other status.
   */
  function StatusColor(status: string): (color: string)
    ensures color == "success" <==> status == Done
    ensures color == "warning" <==> status != Done
  {
    if status == Done then "success" else "warning"
  }
}
