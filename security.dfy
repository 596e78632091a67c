/**
 * The load-time access gate of security.js, as one decision over the
 * browser values it reads. The script's observable result is whether it
 * throws, and which error it throws first.
 */
module Security {
  import opened Text

  /** The crawler names searched for in the lower-cased user agent. */
  const SuspiciousUserAgents: seq<string> := [
    "googlebot", "bingbot", "slurp", "duckduckbot", "baiduspider",
    "yandexbot", "sogou", "exabot", "facebookexternalhit", "ia_archiver"
  ]

  /** What the script reads from the browser. */
  datatype Environment = Environment(
    userAgent: string,     // navigator.userAgent
    framed: bool,          // window.location !== window.parent.location
    referrer: string,      // document.referrer ("" when there is none)
    hostname: string,      // window.location.hostname
    webdriver: bool,       // navigator.webdriver is truthy
    callPhantom: bool,     // window.callPhantom is truthy
    underscorePhantom: bool, // window._phantom is truthy
    phantom: bool          // window.phantom is truthy
  )

  /** How the script ends: it runs to completion or throws one of its two errors. */
  datatype Outcome = Completed | UnauthorizedAccess | AutomatedAccessNotAllowed

  /** names.some(n => s.includes(n)). */
  function ContainsAny(s: string, names: seq<string>): (r: bool)
    ensures r <==> exists k :: 0 <= k < |names| && Contains(s, names[k])
  {
    if names == [] then false
    else Contains(s, names[0]) || ContainsAny(s, names[1..])
  }

  /** The user agent, lower-cased, contains one of the crawler names. */
  predicate IsPotentialBot(userAgent: string) {
    ContainsAny(ToLower(userAgent), SuspiciousUserAgents)
  }

  /** document.referrer && document.referrer.indexOf(hostname) === -1 */
  function HasInvalidReferrer(referrer: string, hostname: string): (r: bool)
    ensures r <==> referrer != "" && forall i :: !OccursAt(referrer, hostname, i)
  {
    referrer != "" && IndexOf(referrer, hostname) == -1
  }

  /** The first abort's condition, evaluated in the `if (potentialBot)` block. */
  predicate UnauthorizedCondition(env: Environment) {
    IsPotentialBot(env.userAgent) && (env.framed || HasInvalidReferrer(env.referrer, env.hostname))
  }

  /** The headless test: a case-sensitive HeadlessChrome in the raw user agent, or an automation global. */
  predicate IsHeadless(env: Environment) {
    Contains(env.userAgent, "HeadlessChrome")
    || env.webdriver || env.callPhantom || env.underscorePhantom || env.phantom
  }

  /** The whole script: the bot check first, then the headless check. */
  function Gate(env: Environment): (o: Outcome)
    ensures o == UnauthorizedAccess <==> UnauthorizedCondition(env)
    ensures o == AutomatedAccessNotAllowed <==> !UnauthorizedCondition(env) && IsHeadless(env)
    ensures o == Completed <==> !UnauthorizedCondition(env) && !IsHeadless(env)
  {
    var potentialBot := IsPotentialBot(env.userAgent);
    if potentialBot && (env.framed || HasInvalidReferrer(env.referrer, env.hostname)) then
      UnauthorizedAccess
    else if IsHeadless(env) then
      AutomatedAccessNotAllowed
    else
      Completed
  }

  /** A user agent with none of the names in it, after lower-casing, never draws the first abort. */
  lemma NonBotNeverUnauthorized(env: Environment)
    requires forall k :: 0 <= k < |SuspiciousUserAgents| ==> !Contains(ToLower(env.userAgent), SuspiciousUserAgents[k])
    ensures Gate(env) != UnauthorizedAccess
  {
  }

  /** For a bot user agent the first abort fires exactly when framed or the referrer is foreign. */
  lemma BotAbortCondition(env: Environment)
    requires IsPotentialBot(env.userAgent)
    ensures Gate(env) == UnauthorizedAccess <==>
      env.framed || (env.referrer != "" && forall i :: !OccursAt(env.referrer, env.hostname, i))
  {
  }

  /** An empty referrer is never invalid. */
  lemma EmptyReferrerIsValid(hostname: string)
    ensures !HasInvalidReferrer("", hostname)
  {
  }

  /** A referrer that contains the hostname at any position is valid. */
  lemma ReferrerWithHostnameIsValid(referrer: string, hostname: string, i: int)
    requires OccursAt(referrer, hostname, i)
    ensures !HasInvalidReferrer(referrer, hostname)
  {
  }

  /** The headless test aborts whatever the bot check says. */
  lemma HeadlessAlwaysAborts(env: Environment)
    requires IsHeadless(env)
    ensures Gate(env) != Completed
    ensures !IsPotentialBot(env.userAgent) ==> Gate(env) == AutomatedAccessNotAllowed
  {
  }

  /** When both aborts apply, the bot abort wins because it runs first. */
  lemma UnauthorizedWinsOverHeadless(env: Environment)
    requires UnauthorizedCondition(env) && IsHeadless(env)
    ensures Gate(env) == UnauthorizedAccess
  {
  }

  /** The bot check looks at the lower-cased user agent, so lower-casing it first changes nothing. */
  lemma BotCheckIgnoresCase(userAgent: string)
    ensures IsPotentialBot(ToLower(userAgent)) == IsPotentialBot(userAgent)
  {
    ToLowerIdempotent(userAgent);
  }

  /** A crawler name written in capitals is still caught, as the lower-casing intends. */
  lemma CapitalisedBotIsCaught(userAgent: string)
    requires |userAgent| >= 9 && userAgent[..9] == "GoogleBot"
    ensures IsPotentialBot(userAgent)
  {
    var lower := ToLower(userAgent);
    assert lower[..9] == "googlebot" by {
      forall k | 0 <= k < 9 ensures lower[k] == "googlebot"[k] {
        assert userAgent[k] == "GoogleBot"[k];
      }
    }
    assert OccursAt(lower, SuspiciousUserAgents[0], 0);
  }

  /**
   * The headless test is case-sensitive and runs on the raw user agent: no
   * lower-cased agent (such as the one the bot check builds) ever matches
   * /HeadlessChrome/.
   */
  lemma HeadlessMatchIsCaseSensitive(userAgent: string)
    ensures !Contains(ToLower(userAgent), "HeadlessChrome")
  {
    var lower := ToLower(userAgent);
    forall i | 0 <= i < |lower|
      ensures !OccursAt(lower, "HeadlessChrome", i)
    {
      assert lower[i] == LowerChar(userAgent[i]) != 'H';
      if i + |"HeadlessChrome"| <= |lower| {
        assert lower[i..i + |"HeadlessChrome"|][0] != "HeadlessChrome"[0];
      }
    }
    ContainsIffOccurs(lower, "HeadlessChrome");
  }
}
