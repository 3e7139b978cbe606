/**
 * The sign-in page (src/pages/Auth.tsx): the login and registration forms and their
 * shared `loading` flag.
 *
 * The server request of each handler is represented by whether it succeeds; the handlers
 * record every value they give `loading` so that its course through a submission can be
 * stated.
 */
module Auth {

  datatype LoginData = LoginData(email: string, password: string)

  datatype RegisterData = RegisterData(username: string, email: string, password: string, confirmPassword: string)

  /** The notice a submission ends with. */
  datatype Notice = PasswordMismatch | LoggedIn | LoginFailed | Registered | RegisterFailed

  /** The last value given to the flag, if any, lowered it. */
  predicate EndsLowered(log: seq<bool>) {
    |log| == 0 || !log[|log| - 1]
  }

  /** The log is a run of submissions, each a raise immediately followed by a lower. */
  predicate Balanced(log: seq<bool>)
    decreases |log|
  {
    |log| == 0 || (|log| >= 2 && log[|log| - 2] && !log[|log| - 1] && Balanced(log[..|log| - 2]))
  }

  /** A run of submissions alternates raise and lower and never leaves the flag raised. */
  lemma {:induction false} BalancedEndsLowered(log: seq<bool>)
    requires Balanced(log)
    ensures EndsLowered(log)
    ensures |log| % 2 == 0
    ensures forall i :: 0 <= i < |log| ==> log[i] == (i % 2 == 0)
  {
    if |log| > 0 {
      var prefix := log[..|log| - 2];
      BalancedEndsLowered(prefix);
      assert forall i :: 0 <= i < |prefix| ==> log[i] == prefix[i];
    }
  }

  /** Appending one submission's raise and lower keeps the log balanced. */
  lemma {:induction false} SubmissionKeepsBalanced(log: seq<bool>)
    requires Balanced(log)
    ensures Balanced(log + [true, false])
  {
    assert (log + [true, false])[..|log|] == log;
  }

  class AuthForm {
    var loginData: LoginData
    var registerData: RegisterData
    var loading: bool
    /** Every value assigned to `loading`, in order. */
    var loadingLog: seq<bool>

    /** Between submissions the flag is down and every raise has been followed by a lower. */
    ghost predicate Valid()
      reads this
    {
      !loading && Balanced(loadingLog)
    }

    constructor ()
      ensures Valid()
      ensures loginData == LoginData("", "") && registerData == RegisterData("", "", "", "")
      ensures !loading && loadingLog == []
    {
      loginData := LoginData("", "");
      registerData := RegisterData("", "", "", "");
      loading := false;
      loadingLog := [];
    }

    method SetLoginData(d: LoginData)
      requires Valid()
      modifies this`loginData
      ensures Valid() && loginData == d
    {
      loginData := d;
    }

    method SetRegisterData(d: RegisterData)
      requires Valid()
      modifies this`registerData
      ensures Valid() && registerData == d
    {
      registerData := d;
    }

    /**
     * `handleLogin`: `loading` is raised for the request and lowered in the `finally`
     * block whatever the outcome; the form is left as typed.
     */
    method HandleLogin(requestSucceeds: bool) returns (notice: Notice)
      requires Valid()
      modifies this`loading, this`loadingLog
      ensures Valid()
      ensures loadingLog == old(loadingLog) + [true, false] && !loading
      ensures notice == (if requestSucceeds then LoggedIn else LoginFailed)
      ensures loginData == old(loginData) && registerData == old(registerData)
    {
      ghost var before := loadingLog;
      loading := true;
      loadingLog := loadingLog + [true];
      if requestSucceeds {
        notice := LoggedIn;
      } else {
        notice := LoginFailed;
      }
      loading := false;
      loadingLog := loadingLog + [false];
      assert loadingLog == before + [true, false];
      SubmissionKeepsBalanced(before);
    }

    /**
     * `handleRegister`: mismatching passwords are refused before `loading` is touched;
     * otherwise `loading` is raised for the request and lowered in the `finally` block.
     */
    method HandleRegister(requestSucceeds: bool) returns (notice: Notice)
      requires Valid()
      modifies this`loading, this`loadingLog
      ensures Valid()
      ensures registerData.password != registerData.confirmPassword ==>
        notice == PasswordMismatch && loading == old(loading) && loadingLog == old(loadingLog)
      ensures registerData.password == registerData.confirmPassword ==>
        notice == (if requestSucceeds then Registered else RegisterFailed)
        && loadingLog == old(loadingLog) + [true, false] && !loading
      ensures loginData == old(loginData) && registerData == old(registerData)
    {
      if registerData.password != registerData.confirmPassword {
        return PasswordMismatch;
      }
      ghost var before := loadingLog;
      loading := true;
      loadingLog := loadingLog + [true];
      if requestSucceeds {
        notice := Registered;
      } else {
        notice := RegisterFailed;
      }
      loading := false;
      loadingLog := loadingLog + [false];
      assert loadingLog == before + [true, false];
      SubmissionKeepsBalanced(before);
    }
  }
}
