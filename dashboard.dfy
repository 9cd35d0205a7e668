/**
 * The client dashboard page: the signed-in client's message list, loaded from and persisted to
 * browser storage, the compose form and its send action, and the newest-first display order.
 */
module Dashboard {
  import opened Wrappers
  import Sorting
  import PortalMessage

  /** The decoded session token. */
  datatype UserData = UserData(email: string, company: string)

  datatype Direction = SentByClient | ReceivedByClient

  /** A message; `id` is the send time in milliseconds and `timestamp` the send time as an ordered value. */
  datatype Message = Message(
    id: int, subject: string, content: string, sender: string, timestamp: int, isRead: bool, direction: Direction)

  datatype ComposeForm = ComposeForm(subject: string, content: string)

  /** How the request to the message route ended: an ok status, another status, or a rejected fetch. */
  datatype FetchOutcome = Ok | NotOk | Rejected

  const EmptyForm := ComposeForm("", "")

  /** The browser-storage key of a client's messages, used both to load and to persist them. */
  function StorageKey(email: string): (k: string)
    ensures |k| == |"messages_"| + |email| && k[|"messages_"|..] == email
  {
    "messages_" + email
  }

  /** Different clients never share a storage key. */
  lemma StorageKeyInjective(a: string, b: string)
    ensures StorageKey(a) == StorageKey(b) <==> a == b
  {
    if StorageKey(a) == StorageKey(b) {
      assert a == StorageKey(a)[|"messages_"|..] == StorageKey(b)[|"messages_"|..] == b;
    }
  }

  /** The body posted to the message route: content becomes `message`, the client's identity is attached. */
  function RequestFor(user: UserData, form: ComposeForm): (q: PortalMessage.MessageForm)
    ensures q.subject == Some(form.subject) && q.message == Some(form.content)
    ensures q.clientEmail == Some(user.email) && q.clientCompany == Some(user.company)
  {
    PortalMessage.MessageForm(Some(form.subject), Some(form.content), Some(user.email), Some(user.company))
  }

  /** A request the page lets through always carries the fields the route requires, given a non-empty e-mail. */
  lemma SentRequestsAreComplete(user: UserData, form: ComposeForm)
    requires form.subject != "" && form.content != "" && user.email != ""
    ensures PortalMessage.Complete(RequestFor(user, form))
  {
  }

  /** The record the page appends for a delivered message. */
  function SentMessage(user: UserData, form: ComposeForm, id: int, timestamp: int): (m: Message)
    ensures m.direction == SentByClient && m.isRead && m.sender == user.company
    ensures m.subject == form.subject && m.content == form.content
    ensures m.id == id && m.timestamp == timestamp
  {
    Message(id, form.subject, form.content, user.company, timestamp, true, SentByClient)
  }

  function Timestamp(m: Message): int { m.timestamp }

  /** The display order is newest first and shows every message exactly as often as it is stored. */
  lemma {:induction false} DisplayOrderNewestFirst(s: seq<Message>)
    ensures Sorting.SortedDesc(Sorting.SortDesc(s, Timestamp), Timestamp)
    ensures multiset(Sorting.SortDesc(s, Timestamp)) == multiset(s)
  {
    Sorting.SortDescSorted(s, Timestamp);
    Sorting.SortDescPermutation(s, Timestamp);
  }

  class ClientDashboard {
    var user: Option<UserData>
    var messages: array<Message>
    var showCompose: bool
    var form: ComposeForm
    var sending: bool
    /** Browser storage; the JSON text of a stored list is modelled by the list itself. */
    var storage: map<string, seq<Message>>
    /** Every body posted to the message route, in order. */
    var requests: seq<PortalMessage.MessageForm>

    constructor(storage0: map<string, seq<Message>>)
      ensures user == None && messages.Length == 0 && !showCompose && form == EmptyForm && !sending
      ensures storage == storage0 && requests == []
    {
      user := None;
      messages := new Message[0];
      showCompose := false;
      form := EmptyForm;
      sending := false;
      storage := storage0;
      requests := [];
    }

    /**
     * The page's start-up effect with the decoded token (`None` when it is missing or cannot be
     * decoded, which redirects to the portal login).
     */
    method Load(token: Option<UserData>) returns (redirect: bool)
      modifies this
      ensures redirect <==> token.None?
      ensures token.None? ==> user == old(user) && messages == old(messages)
      ensures token.Some? ==> user == token
      ensures token.Some? && StorageKey(token.value.email) in storage ==>
                fresh(messages) && messages[..] == storage[StorageKey(token.value.email)]
      ensures token.Some? && StorageKey(token.value.email) !in storage ==> messages == old(messages)
      ensures storage == old(storage) && requests == old(requests) && form == old(form)
      ensures showCompose == old(showCompose) && sending == old(sending)
    {
      if token.None? {
        return true;
      }
      user := token;
      var key := StorageKey(token.value.email);
      if key in storage {
        var saved := storage[key];
        messages := new Message[|saved|](k requires 0 <= k < |saved| => saved[k]);
      }
      return false;
    }

    /**
     * The send action. A form with an empty field, or no signed-in user, changes nothing. Otherwise
     * the request is posted; on an ok response the message is appended, the list persisted under the
     * client's key, the form reset and compose closed; otherwise only an alert is shown. The sending
     * flag is false again on every path past the guard.
     */
    method SendMessage(id: int, timestamp: int, answer: FetchOutcome)
      modifies this
      ensures old(form.subject == "" || form.content == "" || user.None?) ==>
                && user == old(user) && messages == old(messages) && storage == old(storage)
                && requests == old(requests) && form == old(form) && showCompose == old(showCompose)
                && sending == old(sending)
      ensures old(form.subject != "" && form.content != "" && user.Some?) ==>
                && user == old(user) && !sending
                && requests == old(requests) + [RequestFor(user.value, old(form))]
      ensures old(form.subject != "" && form.content != "" && user.Some?) && answer == Ok ==>
                && fresh(messages)
                && messages[..] == old(messages[..]) + [SentMessage(user.value, old(form), id, timestamp)]
                && storage == old(storage)[StorageKey(user.value.email) := messages[..]]
                && form == EmptyForm && !showCompose
      ensures old(form.subject != "" && form.content != "" && user.Some?) && answer != Ok ==>
                && messages == old(messages) && storage == old(storage)
                && form == old(form) && showCompose == old(showCompose)
    {
      if form.subject == "" || form.content == "" || user.None? {
        return;
      }
      sending := true;
      requests := requests + [RequestFor(user.value, form)];
      if answer == Ok {
        var updated := messages[..] + [SentMessage(user.value, form, id, timestamp)];
        messages := new Message[|updated|](k requires 0 <= k < |updated| => updated[k]);
        storage := storage[StorageKey(user.value.email) := updated];
        form := EmptyForm;
        showCompose := false;
      }
      sending := false;
    }

    /** Rendering the list sorts the state array in place, newest timestamp first; storage keeps its order. */
    method SortForDisplay()
      modifies messages
      ensures messages[..] == Sorting.SortDesc(old(messages[..]), Timestamp)
    {
      Sorting.SortInPlace(messages, Timestamp);
    }
  }
}
