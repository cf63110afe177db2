/** The records of package models and the predicates their `validate` tags define. */
module Models {

  /** models.Task. `created` stands for the time.Time instant, kept opaque. */
  datatype Task = Task(id: string, data: string, status: string, created: int, retries: int, priority: int)

  /** models.Credentials. */
  datatype Credentials = Credentials(username: string, password: string)

  /** The status strings written by the API and the worker. */
  const StatusPending := "pending"
  const StatusCompleted := "completed"
  const StatusFailed := "failed"

  /** One entry of the validator's error list: the struct field and the first tag of
      that field that failed. The validator checks every field, and for each field
      stops at its first failing tag. */
  datatype FieldError = FieldError(field: string, tag: string)

  /** validate:"required" on Data; validate:"required,min=1,max=3" on Priority.
      No other field of Task carries a tag. */
  function TaskErrors(t: Task): (errs: seq<FieldError>)
    ensures errs == [] <==> t.data != "" && 1 <= t.priority <= 3
    ensures FieldError("Data", "required") in errs <==> t.data == ""
    ensures FieldError("Priority", "required") in errs <==> t.priority == 0
    ensures FieldError("Priority", "min") in errs <==> t.priority < 0
    ensures FieldError("Priority", "max") in errs <==> t.priority > 3
  {
    (if t.data == "" then [FieldError("Data", "required")] else [])
    + (if t.priority == 0 then [FieldError("Priority", "required")]
       else if t.priority < 1 then [FieldError("Priority", "min")]
       else if t.priority > 3 then [FieldError("Priority", "max")]
       else [])
  }

  predicate ValidTask(t: Task) {
    TaskErrors(t) == []
  }

  /** The server-assigned fields (ID, Status, Created, Retries) play no part in validation. */
  lemma ValidTaskIgnoresServerFields(t: Task, id: string, status: string, created: int, retries: int)
    ensures ValidTask(t) <==> ValidTask(t.(id := id, status := status, created := created, retries := retries))
  {
  }

  /** The `alphanum` tag: ASCII letters and digits only. */
  predicate IsAlphanumeric(c: char) {
    'a' <= c <= 'z' || 'A' <= c <= 'Z' || '0' <= c <= '9'
  }

  predicate AllAlphanumeric(s: string) {
    forall i :: 0 <= i < |s| ==> IsAlphanumeric(s[i])
  }

  /** validate:"required,alphanum,min=3,max=30" on Username and
      validate:"required,min=6" on Password; lengths count characters. */
  function CredentialErrors(c: Credentials): (errs: seq<FieldError>)
    ensures errs == [] <==>
      3 <= |c.username| <= 30 && AllAlphanumeric(c.username) && |c.password| >= 6
    ensures FieldError("Username", "required") in errs <==> c.username == ""
    ensures FieldError("Username", "alphanum") in errs <==> c.username != "" && !AllAlphanumeric(c.username)
    ensures FieldError("Username", "min") in errs <==> c.username != "" && AllAlphanumeric(c.username) && |c.username| < 3
    ensures FieldError("Username", "max") in errs <==> AllAlphanumeric(c.username) && |c.username| > 30
    ensures FieldError("Password", "required") in errs <==> c.password == ""
    ensures FieldError("Password", "min") in errs <==> 0 < |c.password| < 6
  {
    var u := c.username;
    var p := c.password;
    (if u == "" then [FieldError("Username", "required")]
     else if !AllAlphanumeric(u) then [FieldError("Username", "alphanum")]
     else if |u| < 3 then [FieldError("Username", "min")]
     else if |u| > 30 then [FieldError("Username", "max")]
     else [])
    + (if p == "" then [FieldError("Password", "required")]
       else if |p| < 6 then [FieldError("Password", "min")]
       else [])
  }

  predicate ValidCredentials(c: Credentials) {
    CredentialErrors(c) == []
  }

  /** The password has no upper length bound and no character class: lengthening a
      valid password by any characters keeps the credentials valid. */
  lemma PasswordUnbounded(c: Credentials, extra: string)
    requires ValidCredentials(c)
    ensures ValidCredentials(c.(password := c.password + extra))
  {
  }
}
