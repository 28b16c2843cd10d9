/** The chat message that announces a poll: one attachment holding the question,
    the poll's identifier as callback id, and one button per option. */
module SlackMessage {
  import opened Poll

  datatype Action = Action(name: string, text: string, value: string, kind: string)

  datatype Attachment = Attachment(text: string, callbackId: string, actions: seq<Action>)

  datatype Message = Message(attachments: seq<Attachment>)

  /** The option a button stands for: its label and the value it sends back. */
  function OptionOf(a: Action): LunchOption
  {
    LunchOption(a.text, a.value)
  }

  /** The button offered for one option: a "lunch" button from which the option can be read back. */
  function Button(o: LunchOption): (a: Action)
    ensures OptionOf(a) == o
    ensures a.name == "lunch" && a.kind == "button"
  {
    Action("lunch", o.text, o.value, "button")
  }

  /** The message announcing poll `l`. */
  function ToMessage(l: Lunch): (m: Message)
    ensures |m.attachments| == 1
    ensures |m.attachments[0].actions| == |l.options|
  {
    Message([Attachment(l.question, IdString(l.id), seq(|l.options|, i requires 0 <= i < |l.options| => Button(l.options[i])))])
  }

  /** The options a message offers, read back from its first attachment's buttons. */
  function OptionsOf(m: Message): seq<LunchOption>
  {
    if m.attachments == [] then []
    else
      var acts := m.attachments[0].actions;
      seq(|acts|, i requires 0 <= i < |acts| => OptionOf(acts[i]))
  }

  /** The message loses nothing: it carries the question and the poll's identifier,
      every button is a "lunch" button, and the options can be read back in order. */
  lemma ToMessageRoundTrip(l: Lunch)
    ensures OptionsOf(ToMessage(l)) == l.options
    ensures ToMessage(l).attachments[0].text == l.question
    ensures ToMessage(l).attachments[0].callbackId == IdString(l.id)
    ensures forall a :: a in ToMessage(l).attachments[0].actions ==> a.name == "lunch" && a.kind == "button"
  {
  }
}
