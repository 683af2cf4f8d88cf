/**
 * What the pages see of an HTTP reply, and the two error-reporting rules
 * they share: a load failure with status 401 shows the page's
 * log-in message instead of its generic one, and a rejected form shows one
 * error per message of the server's `details` object.
 */
module Http {
  import opened Wrappers

  /** A `details` object: field names in key order, each with its list of messages. */
  type Details = seq<(string, seq<string>)>

  /**
   * A rejected request. `status` is `err.response?.status` (None when no
   * response arrived); `detail` and `details` are the fields of the reply body.
   */
  datatype Failure = Failure(status: Option<int>, detail: Option<string>, details: Option<Details>)

  datatype Reply<+T> = Ok(data: T) | Err(failure: Failure)

  /** A toast notification, by its severity. */
  datatype Toast = InfoToast(text: string) | SuccessToast(text: string) | ErrorToast(text: string)

  /** One error toast per message, in order. */
  function ErrorsOf(messages: seq<string>): (toasts: seq<Toast>)
    ensures |toasts| == |messages|
    ensures forall i :: 0 <= i < |messages| ==> toasts[i] == ErrorToast(messages[i])
  {
    seq(|messages|, i requires 0 <= i < |messages| => ErrorToast(messages[i]))
  }

  const Unauthorized := 401
  const NotFound := 404

  function IsStatus(f: Failure, code: int): bool {
    f.status == Some(code)
  }

  /** Every message of every field, fields in key order, messages in list order. */
  function Messages(details: Details): seq<string> {
    if details == [] then [] else details[0].1 + Messages(details[1..])
  }

  function MessageCount(details: Details): nat {
    if details == [] then 0 else |details[0].1| + MessageCount(details[1..])
  }

  lemma {:induction false} MessagesAppend(a: Details, b: Details)
    ensures Messages(a + b) == Messages(a) + Messages(b)
  {
    if a == [] {
      assert a + b == b;
    } else {
      assert (a + b)[0] == a[0];
      assert (a + b)[1..] == a[1..] + b;
      MessagesAppend(a[1..], b);
    }
  }

  /** One toast per message: the flattened list is exactly as long as all the lists together. */
  lemma {:induction false} MessagesLength(details: Details)
    ensures |Messages(details)| == MessageCount(details)
  {
    if details != [] {
      MessagesLength(details[1..]);
    }
  }

  /** A message is shown exactly when some field carries it. */
  lemma {:induction false} MessagesMembers(details: Details, m: string)
    ensures m in Messages(details) <==> exists i :: 0 <= i < |details| && m in details[i].1
  {
    if details != [] {
      MessagesMembers(details[1..], m);
      if m in Messages(details[1..]) {
        var i :| 0 <= i < |details[1..]| && m in details[1..][i].1;
        assert m in details[i + 1].1;
      }
      forall i | 1 <= i < |details| && m in details[i].1
        ensures m in Messages(details[1..])
      {
        assert details[1..][i - 1] == details[i];
      }
    }
  }

  /**
   * The nested `forEach` of the register and add-user handlers: for each
   * field of `details`, for each of its messages, one error toast.
   */
  method DetailToasts(details: Details) returns (toasts: seq<Toast>)
    ensures toasts == ErrorsOf(Messages(details))
  {
    toasts := [];
    var i := 0;
    while i < |details|
      invariant 0 <= i <= |details|
      invariant toasts == ErrorsOf(Messages(details[..i]))
    {
      var messages := details[i].1;
      var j := 0;
      while j < |messages|
        invariant 0 <= j <= |messages|
        invariant toasts == ErrorsOf(Messages(details[..i]) + messages[..j])
      {
        assert messages[..j + 1] == messages[..j] + [messages[j]];
        toasts := toasts + [ErrorToast(messages[j])];
        j := j + 1;
      }
      assert messages[..j] == messages;
      assert details[..i + 1] == details[..i] + [details[i]];
      MessagesAppend(details[..i], [details[i]]);
      assert Messages([details[i]]) == messages + Messages([]);
      i := i + 1;
    }
    assert details[..i] == details;
  }

  /**
   * The catch block shared by registration and the admin's add-user form:
   * the server's messages when the reply has `details`, otherwise the one
   * generic message.
   */
  method RejectionToasts(f: Failure, generic: string) returns (toasts: seq<Toast>)
    ensures f.details.Some? ==> toasts == ErrorsOf(Messages(f.details.value))
    ensures f.details.None? ==> toasts == [ErrorToast(generic)]
  {
    if f.details.Some? {
      toasts := DetailToasts(f.details.value);
    } else {
      toasts := [ErrorToast(generic)];
    }
  }

  /** The error toast of a failed page load: the log-in message for a 401, the generic one otherwise. */
  function LoadErrorToast(f: Failure, loginMessage: string, generic: string): (t: Toast)
    ensures t.ErrorToast?
    ensures loginMessage != generic ==> (t.text == loginMessage <==> f.status == Some(401))
    ensures t.text == loginMessage || t.text == generic
  {
    if IsStatus(f, Unauthorized) then ErrorToast(loginMessage) else ErrorToast(generic)
  }
}
