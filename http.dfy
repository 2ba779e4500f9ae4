/** The responses the middlewares and controllers produce, reduced to what distinguishes them. */
module Http {

  datatype Response =
    | Passed                                            // $next($request)
    | Json(status: int, error: string, message: string) // response()->json([...], status)
    | Redirect(url: string)                             // redirect()->to(url)
    | RedirectToRoute(name: string)                     // redirect()->route(name)
    | View(status: int, name: string)                   // response()->view(name, ..., status)
    | Failed(status: int)                               // an uncaught exception, rendered by the framework's handler

  function Status(r: Response): int {
    match r
    case Passed => 200
    case Json(status, _, _) => status
    case Redirect(_) => 302
    case RedirectToRoute(_) => 302
    case View(status, _) => status
    case Failed(status) => status
  }
}
