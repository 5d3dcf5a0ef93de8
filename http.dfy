/**
 * What a handler writes to its `http.ResponseWriter`, and what the client then
 * receives.  Each write is one call of a helper: `http.Error`, the
 * application's `render`, `http.Redirect`, or a plain `Write`.  The first call
 * that writes the status decides it; a later `WriteHeader` is superfluous and
 * ignored, while every body still reaches the client in order.
 */
module Http {

  const StatusOK := 200
  const StatusSeeOther := 303
  const StatusBadRequest := 400
  const StatusNotFound := 404
  const StatusUnprocessableEntity := 422
  const StatusInternalServerError := 500

  /** One write to the response, over the pages `P` the application renders. */
  datatype Write<P> =
    | HttpError(status: int)                  // http.Error: the status, then its status text
    | Render(status: int, page: P)            // render: the status, then the executed template
    | Redirect(status: int, location: string) // http.Redirect: the status and a Location header
    | Body(text: string)                      // Write without WriteHeader: an implicit 200

  /** The status a write would set if it were the first one. */
  function StatusOf<P>(w: Write<P>): int
  {
    match w
    case HttpError(s) => s
    case Render(s, _) => s
    case Redirect(s, _) => s
    case Body(_) => StatusOK
  }

  /** The state of a response writer: whether the status line is out, which one, and the parts written. */
  datatype Recorder<P> = Recorder(wroteHeader: bool, status: int, parts: seq<Write<P>>)

  /** A writer nothing has been written to yet; unwritten, it answers 200. */
  function Fresh<P>(): Recorder<P>
  {
    Recorder(false, StatusOK, [])
  }

  /** Performing one write: only the first one sets the status. */
  function Perform<P>(rec: Recorder<P>, w: Write<P>): Recorder<P>
  {
    if rec.wroteHeader then rec.(parts := rec.parts + [w])
    else Recorder(true, StatusOf(w), rec.parts + [w])
  }

  /**
   * Performing writes in order: once the status is out it never changes; if it
   * is not out yet, the first write sets it; every part is kept, in order.
   */
  function PerformAll<P>(rec: Recorder<P>, ws: seq<Write<P>>): (r: Recorder<P>)
    ensures r.parts == rec.parts + ws
    ensures rec.wroteHeader ==> r.wroteHeader && r.status == rec.status
    ensures !rec.wroteHeader && ws != [] ==> r.wroteHeader && r.status == StatusOf(ws[0])
    ensures ws == [] ==> r == rec
    decreases |ws|
  {
    if ws == [] then rec
    else
      var r := PerformAll(Perform(rec, ws[0]), ws[1..]);
      assert rec.parts + [ws[0]] + ws[1..] == rec.parts + ws;
      r
  }

  /** The response a handler's writes produce on a fresh writer. */
  function Sent<P>(ws: seq<Write<P>>): (r: Recorder<P>)
    ensures r.parts == ws
    ensures r.status == if ws == [] then StatusOK else StatusOf(ws[0])
  {
    PerformAll(Fresh(), ws)
  }
}
