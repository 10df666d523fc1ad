/** The alert messages shown on the success and failure pages, keyed by
    endpoint ("success" or "fail") and message kind. */
module Messages {
  import opened Outcomes
  import opened Strs

  /** What the status template is given. */
  datatype AlertMsg = AlertMsg(title: string, image: string, header: string,
                               message: string, kind: string, httpStatus: int)

  const EndpointSuccess: string := "success"
  const EndpointFail: string := "fail"

  const MsgContact: string := "contact"
  const MsgAddress: string := "address"
  const MsgNotFound: string := "notfound"
  const MsgGeneric: string := "generic"

  const StatusOK: int := 200
  const StatusBadRequest: int := 400
  const StatusNotFound: int := 404
  const StatusInternalServerError: int := 500

  const ContactFailText: string := "I could not process your contact request, please contact me here: "
  const GenericFailText: string := "There was an error on my end, please try again or contact me on "

  type Table = map<string, map<string, AlertMsg>>

  /** The mailto link for the owner's address, or "" without one. */
  function Mailto(emailAddress: Option<string>): string {
    match emailAddress
    case None => ""
    case Some(a) => "<a href=\"mailto:" + a + "\">" + a + "</a>"
  }

  /** The link names the address twice: as target and as text. */
  lemma MailtoNamesAddress(a: string)
    ensures var m := Mailto(Some(a));
            OccursAt(m, a, 16) && OccursAt(m, a, 18 + |a|) && HasPrefix(m, "<a href=\"mailto:")
  {
    var m := Mailto(Some(a));
    assert m[16..16 + |a|] == a;
    assert m[18 + |a|..18 + |a| + |a|] == a;
  }

  /** The message for a sent contact request. */
  const SentMessage: AlertMsg := AlertMsg("Success", "delivered.svg", "Message sent successfully",
                                          "I will get in touch with you shortly", "success", StatusOK)

  /** The message for an address that does not parse. */
  const AddressMessage: AlertMsg := AlertMsg("Error", "undelivered.svg", "Oops, something went went wrong",
                                             "I could not understand your email address, please try again",
                                             "danger", StatusBadRequest)

  /** The message for a missing page. */
  const NotFoundMessage: AlertMsg := AlertMsg("404", "404.svg", "Oops, something went wrong",
                                              "<i class='bi-binoculars me-1'></i> I could not find the page you are looking for <i class='ms-1 bi-binoculars'></i>",
                                              "danger", StatusNotFound)

  /** The message for a contact request that could not be sent. */
  function ContactMessage(mailto: string): AlertMsg {
    AlertMsg("Error", "delivered.svg", "Oops, something went wrong", ContactFailText + mailto, "warning", StatusInternalServerError)
  }

  /** The message for any other failure. */
  function GenericMessage(mailto: string): AlertMsg {
    AlertMsg("Sumthin Wong", "error.svg", "Oops, something went wrong", GenericFailText + mailto, "warning", StatusInternalServerError)
  }

  /** The messages, with the mailto link built in where they refer the
      visitor to the owner. */
  function TableWith(mailto: string): Table {
    map[
      EndpointSuccess := map[MsgContact := SentMessage],
      EndpointFail := map[
        MsgAddress := AddressMessage,
        MsgContact := ContactMessage(mailto),
        MsgNotFound := NotFoundMessage,
        MsgGeneric := GenericMessage(mailto)
      ]
    ]
  }

  /** The table Compile installs for the owner's address. */
  function Compiled(emailAddress: Option<string>): Table {
    TableWith(Mailto(emailAddress))
  }

  /** Get on a table: the entry when there is one, else the generic failure
      message; a table without that entry (the nil map before Compile)
      yields nil. */
  function Lookup(table: Table, endpoint: string, kind: string): (msg: Option<AlertMsg>)
    ensures endpoint in table && kind in table[endpoint] ==> msg == Some(table[endpoint][kind])
    ensures !(endpoint in table && kind in table[endpoint]) ==>
              (msg.Some? <==> EndpointFail in table && MsgGeneric in table[EndpointFail])
    ensures !(endpoint in table && kind in table[endpoint]) && msg.Some? ==>
              msg.value == table[EndpointFail][MsgGeneric]
  {
    if endpoint in table && kind in table[endpoint] then Some(table[endpoint][kind])
    else if EndpointFail in table && MsgGeneric in table[EndpointFail] then Some(table[EndpointFail][MsgGeneric])
    else None
  }

  /** Which (endpoint, kind) pairs the compiled table holds. */
  predicate IsListed(endpoint: string, kind: string) {
    || (endpoint == EndpointSuccess && kind == MsgContact)
    || (endpoint == EndpointFail && kind in {MsgAddress, MsgContact, MsgNotFound, MsgGeneric})
  }

  /** After Compile, Get never yields nil: a listed pair gets its own
      message, any other pair the generic failure message. */
  lemma CompiledLookup(emailAddress: Option<string>, endpoint: string, kind: string)
    ensures var t := Compiled(emailAddress);
            var msg := Lookup(t, endpoint, kind);
            && msg.Some?
            && (IsListed(endpoint, kind) <==> endpoint in t && kind in t[endpoint])
            && (IsListed(endpoint, kind) ==> msg.value == t[endpoint][kind])
            && (!IsListed(endpoint, kind) ==> msg.value == t[EndpointFail][MsgGeneric])
  {
  }

  /** The message Get yields from the compiled table. */
  function CompiledGet(emailAddress: Option<string>, endpoint: string, kind: string): (msg: AlertMsg)
    ensures Lookup(Compiled(emailAddress), endpoint, kind) == Some(msg)
  {
    CompiledLookup(emailAddress, endpoint, kind);
    Lookup(Compiled(emailAddress), endpoint, kind).value
  }

  /** The status codes the messages carry: 200 for a sent message, 400 for
      a bad address, 404 for a missing page, 500 otherwise. */
  lemma CompiledStatuses(e: Option<string>)
    ensures CompiledGet(e, EndpointSuccess, MsgContact).httpStatus == StatusOK
    ensures CompiledGet(e, EndpointFail, MsgAddress).httpStatus == StatusBadRequest
    ensures CompiledGet(e, EndpointFail, MsgContact).httpStatus == StatusInternalServerError
    ensures CompiledGet(e, EndpointFail, MsgNotFound).httpStatus == StatusNotFound
    ensures CompiledGet(e, EndpointFail, MsgGeneric).httpStatus == StatusInternalServerError
    ensures CompiledGet(e, EndpointSuccess, MsgNotFound) == CompiledGet(e, EndpointFail, MsgGeneric)
  {
  }

  /** With an address the contact and generic failure messages end in the
      mailto link; without one they end in the bare sentence. */
  lemma FailureMessagesLinkOwner(e: Option<string>)
    ensures HasSuffix(CompiledGet(e, EndpointFail, MsgContact).message, Mailto(e))
    ensures HasSuffix(CompiledGet(e, EndpointFail, MsgGeneric).message, Mailto(e))
    ensures e.Some? ==> Contains(CompiledGet(e, EndpointFail, MsgContact).message, e.value)
    ensures e.Some? ==> Contains(CompiledGet(e, EndpointFail, MsgGeneric).message, e.value)
  {
    EndsWithLink(ContactFailText, e);
    EndsWithLink(GenericFailText, e);
  }

  lemma EndsWithLink(text: string, e: Option<string>)
    ensures HasSuffix(text + Mailto(e), Mailto(e))
    ensures e.Some? ==> Contains(text + Mailto(e), e.value)
  {
    var m := Mailto(e);
    assert (text + m)[|text + m| - |m|..] == m;
    if e.Some? {
      MailtoNamesAddress(e.value);
      OccursInExtension(m, e.value, 16, text, "");
      assert text + m + "" == text + m;
    }
  }

  /** The alternation of the two endpoints, for the status route. */
  function GetRoutingRegexString(): (r: string)
    ensures r == "(success|fail)"
  {
    "(" + EndpointSuccess + "|" + EndpointFail + ")"
  }

  /** The package-level message table, nil (empty) until Compile. */
  class MessageTable {
    var messages: Table

    constructor ()
      ensures messages == map[]
    {
      messages := map[];
    }

    /** Compile: builds the mailto link and installs the messages. */
    method Compile(emailAddress: Option<string>)
      modifies this
      ensures messages == Compiled(emailAddress)
    {
      var mailto := "";
      if emailAddress.Some? {
        mailto := "<a href=\"mailto:" + emailAddress.value + "\">" + emailAddress.value + "</a>";
      }
      assert mailto == Mailto(emailAddress);
      messages := TableWith(mailto);
    }

    /** Get: the message for endpoint and kind, falling back to the
        generic failure message. */
    method Get(endpoint: string, kind: string) returns (msg: Option<AlertMsg>)
      ensures msg == Lookup(messages, endpoint, kind)
    {
      if endpoint in messages && kind in messages[endpoint] {
        return Some(messages[endpoint][kind]);
      }
      if EndpointFail in messages && MsgGeneric in messages[EndpointFail] {
        return Some(messages[EndpointFail][MsgGeneric]);
      }
      return None;
    }
  }
}
