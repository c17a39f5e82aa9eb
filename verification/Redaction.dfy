/** What the sanitizer makes of a JSON value: values under sensitive keys are replaced, other
    strings are redacted by pattern, except directly under a structural key. */
module Redaction {
  import opened Substrings
  import opened TemplateRendering
  import Text

  const SENSITIVE_KEY_PARTS: seq<string> :=
    ["authorization", "cookie", "api_key", "apikey", "password", "passwd", "secret", "token", "credential", "email",
     "phone", "ssn", "pii"]

  const STRUCTURAL_IDENTIFIER_KEYS: seq<string> :=
    ["run_id", "client_id", "audit_id", "audit_execution_id", "job_id", "aggregation_job_id", "config_version",
     "aggregation_version", "intelligence_job_id"]

  const REDACTION_TOKEN := "[REDACTED]"

  function Underscored(s: string): string {
    seq(|s|, i requires 0 <= i < |s| => if s[i] == '-' then '_' else s[i])
  }

  function Normalized(key: string): string {
    Underscored(Lower(key))
  }

  predicate Sensitive(key: string) {
    exists part :: part in SENSITIVE_KEY_PARTS && Text.Contains(Normalized(key), part)
  }

  predicate Structural(key: string) {
    Normalized(key) in STRUCTURAL_IDENTIFIER_KEYS
  }

  /** `redact` is what the patterns do to a string, `mark` the replacement of a whole value. */
  function Sanitized<T>(v: Json<T>, redact: T -> T, mark: T): Json<T> {
    match v
    case Str(text) => Str(redact(text))
    case Arr(items) => Arr(seq(|items|, i requires 0 <= i < |items| => Sanitized(items[i], redact, mark)))
    case Obj(fields) =>
      Obj(seq(|fields|, i requires 0 <= i < |fields| =>
        Field(fields[i].key,
              if Sensitive(fields[i].key) then Str(mark)
              else if Structural(fields[i].key) && fields[i].value.Str? then fields[i].value
              else Sanitized(fields[i].value, redact, mark))))
    case _ => v
  }

  /** The patterns of the sanitizer, for rendered strings and for configured ones. */
  datatype Patterns = Patterns(rendered: Rendered -> Rendered, plain: string -> string)
}
