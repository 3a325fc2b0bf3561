/**
 * The trading-environment switch: one process-wide flag, `paper` or `live`,
 * that GET reports and POST overwrites after validating the request body.
 */
module Environment {
  import opened Json

  datatype Env = Paper | Live

  function EnvName(e: Env): string {
    match e
    case Paper => "paper"
    case Live => "live"
  }

  /** The environment named by a request value, if it is exactly "paper" or "live". */
  function EnvNamed(v: Option<Value>): (r: Option<Env>)
    ensures r.Some? <==> v == Some(JString("paper")) || v == Some(JString("live"))
    ensures r.Some? ==> v == Some(JString(EnvName(r.value)))
  {
    if v == Some(JString("paper")) then Some(Paper)
    else if v == Some(JString("live")) then Some(Live)
    else None
  }

  /** The answer of POST: switched (200), rejected value (400) or a throw (500). */
  datatype SwitchOutcome = Switched(environment: Env, message: string) | Invalid | Crashed

  function SwitchStatus(r: SwitchOutcome): nat {
    match r
    case Switched(_, _) => 200
    case Invalid => 400
    case Crashed => 500
  }

  /**
   * The answer POST gives to a body. It depends on the body alone: the
   * previous flag is only logged.
   */
  function DecideSwitch(body: Body): (r: SwitchOutcome)
    ensures r == Crashed <==> !Destructurable(body)
    ensures r.Switched? <==>
      (Destructurable(body) &&
       Field(body.value, "environment") in {Some(JString("paper")), Some(JString("live"))})
    ensures r.Switched? ==>
      Field(body.value, "environment") == Some(JString(EnvName(r.environment))) &&
      r.message == "Trading environment switched to " + EnvName(r.environment)
    ensures r == Invalid <==>
      (Destructurable(body) &&
       Field(body.value, "environment") !in {Some(JString("paper")), Some(JString("live"))})
  {
    if !Destructurable(body) then Crashed
    else
      var requested := Field(body.value, "environment");
      // `!environment || !['paper', 'live'].includes(environment)`
      if !Truthy(requested) then Invalid
      else match EnvNamed(requested)
        case None => Invalid
        case Some(e) => Switched(e, "Trading environment switched to " + EnvName(e))
  }

  /** The flag after POST has answered `body` in state `current`. */
  function After(current: Env, body: Body): (e: Env)
    ensures DecideSwitch(body).Switched? ==> e == DecideSwitch(body).environment
    ensures !DecideSwitch(body).Switched? ==> e == current
  {
    match DecideSwitch(body)
    case Switched(target, _) => target
    case Invalid => current
    case Crashed => current
  }

  /** Posting the same body twice leaves the flag where posting it once does. */
  lemma SwitchIdempotent(current: Env, body: Body)
    ensures After(After(current, body), body) == After(current, body)
  {
  }

  /** A successful switch lands on the requested value whatever the flag was before. */
  lemma SwitchForgetsPrevious(e1: Env, e2: Env, body: Body)
    requires DecideSwitch(body).Switched?
    ensures After(e1, body) == After(e2, body)
  {
  }

  /** The module-level state `currentEnvironment`. */
  class Setting {
    var current: Env

    constructor ()
      ensures current == Paper
    {
      current := Paper;
    }

    /** GET: the current flag, without changing it. */
    method Get() returns (e: Env)
      ensures e == current
    {
      e := current;
    }

    /** POST: validate the body, then overwrite the flag on success. */
    method Set(body: Body) returns (r: SwitchOutcome)
      modifies this
      ensures r == DecideSwitch(body)
      ensures current == After(old(current), body)
      ensures r.Switched? ==> current == r.environment
      ensures !r.Switched? ==> current == old(current)
    {
      r := DecideSwitch(body);
      if r.Switched? {
        current := r.environment;
      }
    }
  }

  /** A fresh process answers GET with `paper`, and a valid POST is echoed by the next GET. */
  method SwitchThenRead(body: Body) returns (before: Env, after: Env, r: SwitchOutcome)
    ensures before == Paper
    ensures r == DecideSwitch(body)
    ensures after == (if r.Switched? then r.environment else Paper)
  {
    var setting := new Setting();
    before := setting.Get();
    r := setting.Set(body);
    after := setting.Get();
  }
}
