/** The chat page: a list of conversations, the selected one, and the effect that
    opens the conversation named by the `agencyId` and `agencyName` URL
    parameters. */
module ChatPage {
  import opened Wrappers

  datatype Chat = Chat(id: string, agencyName: string, lastMessage: string, timestamp: string, unread: nat, avatar: string)

  /** `CONVERSATIONS`. */
  const Conversations: seq<Chat> := [
    Chat("1", "Royal Heritage Weddings", "We'd love to help with your wedding!", "2m ago", 2, "R"),
    Chat("2", "Urban Events Pro", "Thanks for reaching out. When is your event?", "1h ago", 0, "U"),
    Chat("3", "Goa Vibes Planners", "Perfect! We have availability for that date.", "3h ago", 1, "G")
  ]

  predicate DistinctIds(cs: seq<Chat>) {
    forall i, j :: 0 <= i < j < |cs| ==> cs[i].id != cs[j].id
  }

  /** `conversations.find(c => c.id === id)`, as the index of the first match. */
  function FindIndex(cs: seq<Chat>, id: string): (r: Option<nat>)
    ensures r.Some? ==> r.value < |cs| && cs[r.value].id == id && forall j :: 0 <= j < r.value ==> cs[j].id != id
    ensures r.None? ==> forall j :: 0 <= j < |cs| ==> cs[j].id != id
  {
    if cs == [] then None
    else if cs[0].id == id then Some(0)
    else
      var rest := FindIndex(cs[1..], id);
      if rest.Some? then Some(rest.value + 1) else None
  }

  /** The chat created for an agency not yet in the list: the decoded name, no
      unread messages, and the first character of the raw parameter as avatar. */
  function NewChat(agencyId: string, agencyName: string, decode: string -> string): (c: Chat)
    requires agencyName != []
    ensures c.id == agencyId && c.agencyName == decode(agencyName)
    ensures c.lastMessage == "Start a conversation..." && c.timestamp == "Just now"
    ensures c.unread == 0 && c.avatar == [agencyName[0]]
  {
    Chat(agencyId, decode(agencyName), "Start a conversation...", "Just now", 0, [agencyName[0]])
  }

  /** A URL parameter is truthy: present and not empty. */
  predicate Given(p: Option<string>) {
    p.Some? && p.value != []
  }

  lemma TableIsDistinct()
    ensures DistinctIds(Conversations)
  {
  }

  class ChatPageState {
    var conversations: seq<Chat>
    var selectedChat: Chat

    /** The page starts on the mock list with its first chat selected. */
    constructor ()
      ensures conversations == Conversations && selectedChat == Conversations[0]
    {
      conversations := Conversations;
      selectedChat := Conversations[0];
    }

    /** The parameter effect; `decode` stands for `decodeURIComponent`. */
    method OpenFromParams(agencyId: Option<string>, agencyName: Option<string>, decode: string -> string)
      modifies this
      ensures !(Given(agencyId) && Given(agencyName)) ==>
        conversations == old(conversations) && selectedChat == old(selectedChat)
      ensures Given(agencyId) && Given(agencyName) && FindIndex(old(conversations), agencyId.value).Some? ==>
        conversations == old(conversations) &&
        selectedChat == old(conversations)[FindIndex(old(conversations), agencyId.value).value]
      ensures Given(agencyId) && Given(agencyName) && FindIndex(old(conversations), agencyId.value).None? ==>
        conversations == [NewChat(agencyId.value, agencyName.value, decode)] + old(conversations) &&
        selectedChat == conversations[0]
      ensures Given(agencyId) && Given(agencyName) ==> selectedChat.id == agencyId.value && selectedChat in conversations
      ensures DistinctIds(old(conversations)) ==> DistinctIds(conversations)
    {
      if Given(agencyId) && Given(agencyName) {
        var existing := FindIndex(conversations, agencyId.value);
        if existing.Some? {
          selectedChat := conversations[existing.value];
        } else {
          var newChat := NewChat(agencyId.value, agencyName.value, decode);
          conversations := [newChat] + conversations;
          selectedChat := newChat;
        }
      }
    }
  }

  /** Opening the same agency twice adds at most one chat: the second time finds
      the first time's chat. */
  method OpenTwice(page: ChatPageState, agencyId: string, agencyName: string, decode: string -> string)
    requires agencyId != [] && agencyName != []
    modifies page
    ensures |page.conversations| <= |old(page.conversations)| + 1
    ensures page.selectedChat.id == agencyId
  {
    page.OpenFromParams(Some(agencyId), Some(agencyName), decode);
    ghost var after := page.conversations;
    page.OpenFromParams(Some(agencyId), Some(agencyName), decode);
    assert page.conversations == after;
  }
}
