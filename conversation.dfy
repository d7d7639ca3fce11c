/** The values the chat page handles and the expression-only transformations
    it applies to them: turning fetched history into rendered messages,
    reversing the chat list, and validating a prompted chat title. */
module Conversation {
  import opened JsString

  datatype Option<+T> = None | Some(value: T)

  /** The `type` of a rendered message: 'user' or 'ai'. */
  datatype Kind = User | Ai

  /** A rendered message `{type, content}` in the page's transient list. */
  datatype Msg = Msg(kind: Kind, content: string)

  /** A message record as the history endpoint returns it: `{role, content}`.
      The role is whatever string the server stored. */
  datatype Record = Record(role: string, content: string)

  /** A chat as the server describes it; only its id and title are used here.
      The page reads a created chat's id from its `_id` field but compares
      list entries by an `id` field; `id` here stands for both, on the
      assumption that they carry the same value. */
  datatype Chat = Chat(id: string, title: string)

  /** One fetched record as the page renders it: role 'user' gives type
      'user', every other role gives type 'ai'. */
  function ToDisplay(m: Record): Msg {
    Msg(if m.role == "user" then User else Ai, m.content)
  }

  /** `response.data.messages.map(...)`: the history as the page shows it.
      Same length and order as the fetched list, every content kept, and an
      entry is of kind User exactly when its record's role is "user". */
  function MapHistory(fetched: seq<Record>): (shown: seq<Msg>)
    ensures |shown| == |fetched|
    ensures forall i :: 0 <= i < |fetched| ==>
      shown[i].content == fetched[i].content && (shown[i].kind == User <==> fetched[i].role == "user")
  {
    if fetched == [] then [] else [ToDisplay(fetched[0])] + MapHistory(fetched[1..])
  }

  /** Mapping history commutes with appending to it: what the page shows for
      a longer history is what it showed for the shorter one, extended. */
  lemma {:induction false} MapHistoryAppend(a: seq<Record>, b: seq<Record>)
    ensures MapHistory(a + b) == MapHistory(a) + MapHistory(b)
  {
    if a == [] {
      assert a + b == b;
    } else {
      assert (a + b)[1..] == a[1..] + b;
      MapHistoryAppend(a[1..], b);
    }
  }

  /** The view the page builds by hand after sending `sent` and receiving
      `reply` is the view a fresh fetch gives once the server has stored the
      user message and the assistant's answer after the earlier history. */
  lemma ReloadMatchesOptimisticView(history: seq<Record>, sent: string, reply: string)
    ensures MapHistory(history + [Record("user", sent), Record("assistant", reply)])
         == MapHistory(history) + [Msg(User, sent), Msg(Ai, reply)]
  {
    MapHistoryAppend(history, [Record("user", sent), Record("assistant", reply)]);
  }

  /** `Array.prototype.reverse`: the first element of the result is the last
      of the input, and so on. */
  function Reverse<T>(s: seq<T>): (r: seq<T>)
    ensures |r| == |s|
    ensures forall i :: 0 <= i < |s| ==> r[i] == s[|s| - 1 - i]
  {
    if s == [] then [] else [s[|s| - 1]] + Reverse(s[..|s| - 1])
  }

  /** Reversing keeps exactly the same elements. */
  lemma {:induction false} ReversePermutes<T>(s: seq<T>)
    ensures multiset(Reverse(s)) == multiset(s)
  {
    if s != [] {
      ReversePermutes(s[..|s| - 1]);
      assert s == s[..|s| - 1] + [s[|s| - 1]];
    }
  }

  /** The guard of `handleNewChat` on the prompted title (null when the
      prompt is cancelled): a non-empty title is trimmed, and an absent or
      blank title yields no title at all. */
  function NewChatTitle(prompted: Option<string>): (title: Option<string>)
    ensures title.None? <==> prompted.None? || AllSpace(prompted.value)
    ensures title.Some? ==> title.value == Trim(prompted.value) && title.value != []
    ensures title.Some? ==> Tight(title.value)
  {
    match prompted
    case None => None
    case Some(p) =>
      TrimSpec(p);
      var t := if p != "" then Trim(p) else p;
      if t == "" then None else Some(t)
  }
}
