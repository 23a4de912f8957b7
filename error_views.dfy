/**
 * The `error/error` page both exception handlers render, and the profile test that decides
 * whether the page shows the exception's class and stack trace.
 */
module ErrorViews {
  import opened Wrappers
  import HttpStatus

  /**
   * The model attributes and response status of an `error/error` rendering. `exception` is
   * present exactly when the class name and the stack trace were attached; the trace text
   * itself is not modelled.
   */
  datatype ErrorView = ErrorView(status: int, error: string, message: Option<string>, exception: Option<string>)

  /** The active profiles, and the default profiles that stand in when none is active. */
  datatype Environment = Environment(active: seq<string>, defaults: seq<string>)

  /** `acceptsProfiles` for one profile name. */
  predicate Accepts(env: Environment, profile: string)
  {
    profile in env.active || (|env.active| == 0 && profile in env.defaults)
  }

  /** `acceptsProfiles("default", "debug")`: whether either profile is in effect. */
  predicate ShowsDetails(env: Environment)
  {
    Accepts(env, "default") || Accepts(env, "debug")
  }

  /**
   * `renderError`: the status, its reason phrase as `error`, the given message, and the
   * exception class only under the `default` or `debug` profile.
   */
  function RenderError(env: Environment, status: int, message: Option<string>, exceptionClass: string): (v: ErrorView)
    requires HttpStatus.IsKnown(status)
    ensures v.status == status && Some(v.error) == HttpStatus.Reason(status)
    ensures v.message == message
    ensures v.exception.Some? <==> ShowsDetails(env)
    ensures v.exception.Some? ==> v.exception.value == exceptionClass
  {
    ErrorView(status, HttpStatus.Reason(status).value, message,
      if ShowsDetails(env) then Some(exceptionClass) else None)
  }

  /** With no profile activated and Spring's own default profile, details are shown. */
  lemma UnconfiguredShowsDetails()
    ensures ShowsDetails(Environment([], ["default"]))
  {
  }

  /** Once any profile other than `default` and `debug` is the only one active, details are hidden, whatever the defaults. */
  lemma OtherProfileHidesDetails(profile: string, defaults: seq<string>)
    requires profile != "default" && profile != "debug"
    ensures !ShowsDetails(Environment([profile], defaults))
  {
  }
}
