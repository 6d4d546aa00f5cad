/**
 * The Go `error` values that flow through the provisioning code: a failure
 * reported by the driver or the entropy source, an error wrapped by
 * `fmt.Errorf` with the `%w` verb, and the package's own
 * `PostgresConnectionError`. `ErrorText` is the `Error()` method of each,
 * `Unwrap` is `errors.Unwrap` and `Is` is `errors.Is` with errors compared
 * by value.
 *
 * `PostgresConnectionError.Error` reads the package-level user name and
 * password; here they are passed in as `Credentials`.
 */
module Errors {
  import opened Wrappers

  datatype Credentials = Credentials(username: string, password: string)

  datatype Error =
    | Failure(text: string)
    | Wrapped(context: string, cause: Error)
    | PostgresConnectionError(err: Error)

  /** `errors.Unwrap`: the error directly wrapped, if any. */
  function Unwrap(e: Error): (r: Option<Error>)
    ensures r.None? <==> e.Failure?
    ensures e.PostgresConnectionError? ==> r == Some(e.err)
    ensures e.Wrapped? ==> r == Some(e.cause)
  {
    match e
    case Failure(_) => None
    case Wrapped(_, cause) => Some(cause)
    case PostgresConnectionError(err) => Some(err)
  }

  /**
   * `errors.Is` with errors compared by value rather than by identity:
   * `target` is on the chain that `Unwrap` walks from `e`.
   */
  predicate Is(e: Error, target: Error) {
    e == target || (!e.Failure? && Is(Unwrap(e).value, target))
  }

  /** Every error on the chain wraps everything below it. */
  lemma {:induction false} IsTransitive(a: Error, b: Error, c: Error)
    requires Is(a, b) && Is(b, c)
    ensures Is(a, c)
  {
    if a != b {
      IsTransitive(Unwrap(a).value, b, c);
    }
  }

  /** The chain of a connection error reaches the driver error it was built from. */
  lemma ConnectionErrorWraps(err: Error)
    ensures Is(PostgresConnectionError(err), err)
    ensures forall target :: Is(err, target) ==> Is(PostgresConnectionError(err), target)
  {
  }

  const ConnectionFailed := "\nConnection to Postgres failed: "
  const Remedy := "Please run the following commands to create the necessary user and grant permissions:\n"
  const CreateUser := "\tsudo -u postgres createuser --createdb --pwprompt "
  const PsqlCommand := "\tsudo -u postgres psql -c \""

  /** `s` holds `sub` starting at index `i`. */
  predicate OccursAt(s: string, sub: string, i: int) {
    0 <= i && i + |sub| <= |s| && s[i..i + |sub|] == sub
  }

  predicate Contains(s: string, sub: string) {
    exists i | 0 <= i <= |s| :: OccursAt(s, sub, i)
  }

  lemma OccursBetween(a: string, sub: string, b: string)
    ensures OccursAt(a + sub + b, sub, |a|)
  {
  }

  lemma OccursWithin(s: string, t: string, i: int, u: string, j: int)
    requires OccursAt(s, t, i) && OccursAt(t, u, j)
    ensures OccursAt(s, u, i + j)
  {
    assert t == s[i..i + |t|];
    forall k | 0 <= k < |u|
      ensures s[i + j..i + j + |u|][k] == u[k]
    {
      assert u[k] == t[j + k] == s[i + j + k];
    }
  }

  /** The command line that sets the password and grants database creation. */
  function AlterUserCommand(cred: Credentials): string {
    "ALTER USER " + cred.username + " WITH PASSWORD '" + cred.password + "' CREATEDB;"
  }

  /**
   * The message of a `PostgresConnectionError` whose wrapped error prints
   * as `cause`: a leading blank line, the failure, then the commands that
   * create the role with the configured user name and password.
   */
  function ConnectionErrorText(cause: string, cred: Credentials): (s: string)
    ensures OccursAt(s, ConnectionFailed + cause + "\n", 0)
    ensures OccursAt(s, Remedy, |ConnectionFailed + cause + "\n"|)
    ensures OccursAt(s, CreateUser + cred.username + "\n", |ConnectionFailed + cause + "\n"| + |Remedy|)
    ensures Contains(s, AlterUserCommand(cred))
    ensures s[|s| - 1] == '\n'
  {
    var failure := ConnectionFailed + cause + "\n";
    var createUser := CreateUser + cred.username + "\n";
    FourLines(failure, Remedy, createUser, PsqlCommand, AlterUserCommand(cred), "\"\n");
    failure + Remedy + createUser + (PsqlCommand + AlterUserCommand(cred) + "\"\n")
  }

  /** Where each part of a four-line message sits. */
  lemma FourLines(a: string, b: string, c: string, p: string, d: string, q: string)
    requires |q| > 0 && q[|q| - 1] == '\n'
    ensures var s := a + b + c + (p + d + q);
      && OccursAt(s, a, 0) && OccursAt(s, b, |a|) && OccursAt(s, c, |a| + |b|)
      && OccursAt(s, d, |a| + |b| + |c| + |p|) && s[|s| - 1] == '\n'
  {
  }

  /** `Error()` of each kind of error. */
  function ErrorText(e: Error, cred: Credentials): string {
    match e
    case Failure(text) => text
    case Wrapped(context, cause) => context + ErrorText(cause, cred)
    case PostgresConnectionError(err) => ConnectionErrorText(ErrorText(err, cred), cred)
  }

  /** `PostgresConnectionError.Error`, writing the message into a buffer line by line. */
  method ConnectionErrorMessage(err: Error, cred: Credentials) returns (b: string)
    ensures b == ErrorText(PostgresConnectionError(err), cred)
    ensures Contains(b, ErrorText(err, cred)) && Contains(b, cred.username)
  {
    var cause := ErrorText(err, cred);
    b := "";
    b := b + (ConnectionFailed + cause + "\n");
    b := b + Remedy;
    b := b + (CreateUser + cred.username + "\n");
    b := b + (PsqlCommand + AlterUserCommand(cred) + "\"\n");
    EmptyBufferAppend(ConnectionFailed + cause + "\n", Remedy, CreateUser + cred.username + "\n",
                      PsqlCommand + AlterUserCommand(cred) + "\"\n");
    assert b == ConnectionErrorText(cause, cred);
    OccursWithin(b, ConnectionFailed + cause + "\n", 0, cause, |ConnectionFailed|) by {
      OccursBetween(ConnectionFailed, cause, "\n");
    }
    OccursWithin(b, CreateUser + cred.username + "\n", |ConnectionFailed + cause + "\n"| + |Remedy|,
                 cred.username, |CreateUser|) by {
      OccursBetween(CreateUser, cred.username, "\n");
    }
  }

  lemma EmptyBufferAppend(a: string, b: string, c: string, d: string)
    ensures "" + a + b + c + d == a + b + c + d
  {
  }
}
