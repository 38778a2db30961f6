/**
 * What a handler asks the messaging platform to do. The Telegram client
 * library is not modelled: every call a handler makes on it becomes one
 * `Effect`, in the order the handler makes it.
 */
module Platform {

  /** An inline-keyboard button: a callback payload, or a link. Row layout is not modelled. */
  datatype Button =
    | CallbackButton(caption: string, payload: string)
    | UrlButton(caption: string, url: string)

  /** An exception that escapes a handler (Python's `KeyError`, or a `ValueError` from tuple unpacking). */
  datatype HandlerError =
    | KeyError(key: string)
    | UnpackError(pieces: nat)

  datatype Effect =
    /** `message.reply(text, reply_markup=...)`: a reply quoting the incoming message */
    | Reply(text: string, buttons: seq<Button>)
    /** `message.answer(text, reply_markup=...)`: a plain message in the sender's chat */
    | Respond(text: string, buttons: seq<Button>)
    /** `cb.answer(text, show_alert=...)`: acknowledges a button press */
    | AnswerCallback(text: string, alert: bool)
    /** `bot.send_message(chat, text)` */
    | Send(chat: int, text: string)
    /** `bot.edit_message_text(...)` on the message that carries the pressed button */
    | Edit(text: string, buttons: seq<Button>)
    /** the handler stopped with an exception */
    | Raised(error: HandlerError)
}
