/**
  The link validator of src/validation.js: the schema `required().url()`
  plus a `.rss` suffix, the table that turns the schema library's messages
  into the messages shown to the user, and the state update once the
  validation settles.  Whether a string is URL-shaped is the schema
  library's regular expression and is a parameter here.
 */
module Validation {
  import opened Wrappers
  import opened Strings
  import opened Schema

  // The schema library's message for a failed `matches(/.*\.rss$/)`.
  const RssMismatchMessage := "this must match the following: \"/.*\\.rss$/\""

  // Messages shown to the user.
  const InvalidUrlText := "URL is invalid, check example to see valid URL"
  const NotRssText := "URL is invalid, make sure you're passing .rss link"
  const RequiredText := "Don't forget to put in URL"
  const UnknownText := "Unknown error, what are you doing?"

  const LoadingPhase := "loading"
  const ErrorPhase := "error"

  /** `handleErrorMsg`: a fixed user message for each known check, and one catch-all. */
  function HandleErrorMsg(message: string): (r: string)
    ensures r in {InvalidUrlText, NotRssText, RequiredText, UnknownText}
    ensures r == InvalidUrlText <==> message == InvalidUrlMessage
    ensures r == NotRssText <==> message == RssMismatchMessage
    ensures r == RequiredText <==> message == RequiredMessage
    ensures r == UnknownText <==> message !in {InvalidUrlMessage, RssMismatchMessage, RequiredMessage}
  {
    match message
    case "this must be a valid URL" => InvalidUrlText
    case "this must match the following: \"/.*\\.rss$/\"" => NotRssText
    case "this is a required field" => RequiredText
    case _ => UnknownText
  }

  /** No character of `s` ends a line, so `.` of a regular expression matches each of them. */
  ghost predicate NoLineTerminator(s: string) {
    forall i :: 0 <= i < |s| ==> s[i] !in {'\n', '\r', '\U{2028}', '\U{2029}'}
  }

  /** `s.search(/.*\.rss$/) !== -1`: some run of non-terminators followed by `.rss` ends the string. */
  ghost predicate MatchesRssPattern(s: string) {
    exists i, j :: 0 <= i <= j <= |s| && NoLineTerminator(s[i..j]) && s[j..] == ".rss"
  }

  /** The pattern holds exactly for the strings ending in `.rss`. */
  lemma RssPatternIsSuffix(s: string)
    ensures MatchesRssPattern(s) <==> EndsWith(s, ".rss")
  {
    if EndsWith(s, ".rss") {
      var j := |s| - 4;
      assert NoLineTerminator(s[j..j]);
    }
    if MatchesRssPattern(s) {
      var i, j :| 0 <= i <= j <= |s| && NoLineTerminator(s[i..j]) && s[j..] == ".rss";
      assert |s| - j == 4;
    }
  }

  /** The messages of the checks of `string().required().url().matches(/.*\.rss$/)` that `link` fails. */
  function Failures(link: string, urlShaped: string -> bool): set<string> {
    (if link == "" then {RequiredMessage} else {})
    + (if !urlShaped(link) then {InvalidUrlMessage} else {})
    + (if !EndsWith(link, ".rss") then {RssMismatchMessage} else {})
  }

  /**
    The outcome of `schema.validate(link)`: `None` when it resolves,
    otherwise the message it rejects with, that of one failing check (the
    schema's declared order decides which here).
   */
  function SchemaError(link: string, urlShaped: string -> bool): (r: Option<string>)
    ensures r.None? <==> link != "" && urlShaped(link) && EndsWith(link, ".rss")
    ensures r.Some? ==> r.value in Failures(link, urlShaped)
  {
    if link == "" then Some(RequiredMessage)
    else if !urlShaped(link) then Some(InvalidUrlMessage)
    else if !EndsWith(link, ".rss") then Some(RssMismatchMessage)
    else None
  }

  /** A rejected link always gets one of the three specific messages, never the catch-all. */
  lemma RejectionIsExplained(link: string, urlShaped: string -> bool)
    requires SchemaError(link, urlShaped).Some?
    ensures HandleErrorMsg(SchemaError(link, urlShaped).value) in {InvalidUrlText, NotRssText, RequiredText}
  {
  }

  /** The `state` record that `validation` updates. */
  class LinkState {
    var link: string
    var feeds: seq<string>
    var errors: seq<string>
    var phase: string

    constructor (link: string)
      ensures this.link == link && feeds == [] && errors == [] && phase == ""
    {
      this.link, feeds, errors, phase := link, [], [], "";
    }

    /**
      `validation(state)` once the schema's promise settles: an accepted link
      is appended to `feeds` and the phase becomes loading; a rejected one
      appends exactly one user message to `errors` and the phase becomes
      error.
     */
    method Validate(urlShaped: string -> bool)
      modifies this`feeds, this`errors, this`phase
      ensures var e := SchemaError(link, urlShaped);
        && (e.None? ==> feeds == old(feeds) + [link] && errors == old(errors) && phase == LoadingPhase)
        && (e.Some? ==> feeds == old(feeds) && errors == old(errors) + [HandleErrorMsg(e.value)] && phase == ErrorPhase)
    {
      var e := SchemaError(link, urlShaped);
      if e.None? {
        feeds := feeds + [link];
        phase := LoadingPhase;
      } else {
        var msg := HandleErrorMsg(e.value);
        errors := errors + [msg];
        phase := ErrorPhase;
      }
    }
  }
}
