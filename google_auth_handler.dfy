// frontend/src/components/GoogleAuthHandler.tsx: the overlay shown while a
// Gmail authorisation code from the URL is exchanged. Its state is a class:
// the status machine idle → processing → success | error → idle, the
// message, and the `code` query parameter of the current location. The
// exchange is split where the source awaits: `BeginAuthCode` runs up to the
// request, `CompleteAuthCode` is given how the request ends.

module GoogleAuthHandler {
  import opened Common
  import Js

  datatype Status = Idle | Processing | Success | Error

  const Connecting := "Connecting your Gmail account..."
  const Connected := "Successfully connected to Gmail! You can now send emails directly from the platform."
  const ConnectFailed := "Failed to connect to Gmail."
  const ConnectError := "An error occurred while connecting to Gmail."

  /** How the code exchange ends: it threw (no connection, or a reply that is not JSON), or it replied. */
  datatype AuthReply = Threw | Replied(status: Js.Value, message: Js.Value)

  /** The overlay: its title, its message and its button, if any. */
  datatype Overlay = Overlay(title: string, message: string, button: Option<string>)

  /** The status and message after the exchange ends. */
  function Outcome(reply: AuthReply): (r: (Status, string))
    ensures r.0 == Success <==> reply.Replied? && reply.status == Js.Str("success")
    ensures r.0 == Success || r.0 == Error
    ensures r.0 == Success ==> r.1 == Connected
    ensures reply.Threw? ==> r.1 == ConnectError
    ensures reply.Replied? && r.0 == Error ==>
      r.1 == (if Js.Truthy(reply.message) then Js.ToText(reply.message) else ConnectFailed)
  {
    match reply
    case Threw => (Error, ConnectError)
    case Replied(status, message) =>
      if status == Js.Str("success") then (Success, Connected)
      else (Error, if Js.Truthy(message) then Js.ToText(message) else ConnectFailed)
  }

  class Handler {
    var status: Status
    var message: string
    var code: Option<string>

    /** The handler as it mounts on a location whose `code` parameter is `code`. */
    constructor (code: Option<string>)
      ensures status == Idle && message == "" && this.code == code
    {
      status := Idle;
      message := "";
      this.code := code;
    }

    /** Whether the effect starts an exchange: a (non-empty) code, and nothing under way or shown. */
    predicate ExchangeDue()
      reads this
    {
      code.Some? && code.value != "" && status == Idle
    }

    /**
     * The effect, run on mount and whenever the location or the status
     * changes: it starts the exchange of the code exactly when one is due,
     * and then returns the code it posts.
     */
    method Effect() returns (posted: Option<string>)
      modifies `status, `message
      ensures old(ExchangeDue()) ==> posted == old(code) && status == Processing && message == Connecting && !ExchangeDue()
      ensures !old(ExchangeDue()) ==> posted.None? && status == old(status) && message == old(message)
    {
      posted := None;
      if code.Some? && code.value != "" && status == Idle {
        posted := code;
        BeginAuthCode();
      }
    }

    /** `handleAuthCode` up to the request: the overlay shows the exchange under way. */
    method BeginAuthCode()
      modifies `status, `message
      ensures status == Processing && message == Connecting
    {
      status := Processing;
      message := Connecting;
    }

    /**
     * The rest of `handleAuthCode`, given how the request ends: success
     * exactly for a `success` reply. The status is no longer idle, so the
     * effect that follows starts no second exchange.
     */
    method CompleteAuthCode(reply: AuthReply)
      modifies `status, `message
      ensures (status, message) == Outcome(reply)
      ensures !ExchangeDue()
    {
      match reply {
        case Threw =>
          status := Error;
          message := ConnectError;
        case Replied(s, m) =>
          if s == Js.Str("success") {
            status := Success;
            message := Connected;
          } else {
            status := Error;
            message := if Js.Truthy(m) then Js.ToText(m) else ConnectFailed;
          }
      }
    }

    /**
     * `handleClose`: the location is replaced by its path without the query,
     * so the code is gone, and the status is idle again; no new exchange is
     * due.
     */
    method HandleClose()
      modifies `status, `code
      ensures status == Idle && code.None?
      ensures !ExchangeDue()
    {
      code := None;
      status := Idle;
    }

    /**
     * What the handler renders: nothing while idle; the spinner while the
     * exchange runs; the result with a button to dismiss it afterwards.
     */
    function Render(): (o: Option<Overlay>)
      reads this
      ensures o.None? <==> status == Idle
      ensures o.Some? ==> o.value.message == message
      ensures o.Some? ==> (o.value.button.None? <==> status == Processing)
    {
      match status
      case Idle => None
      case Processing => Some(Overlay("Connecting...", message, None))
      case Success => Some(Overlay("Connected!", message, Some("Continue")))
      case Error => Some(Overlay("Connection Failed", message, Some("Close")))
    }
  }
}
