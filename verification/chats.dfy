/**
 * The conversation list (app.js `showChatsModal`): which participant a
 * conversation is named after, and the shortened last-message preview.
 */
module Chats {
  import opened Wrappers
  import JsText
  import Html

  /** A participant's profile snippet; the name may be missing. */
  datatype Participant = Participant(username: Option<string>)

  /** The participant map of a conversation, as the `Object.entries` list of (identity, snippet). */
  type Participants = seq<(string, Participant)>

  /** Longest preview of the last message, in JavaScript string length (UTF-16 code units). */
  const PreviewLength: nat := 50

  /**
   * `Object.entries(participants).find(([id]) => id !== uid)`: the first entry whose
   * identity differs from the signed-in one (with no session, simply the first entry).
   */
  function OtherParticipant(participants: Participants, uid: Option<string>): (r: Option<Participant>)
    ensures r.None? <==> forall k :: 0 <= k < |participants| ==> Some(participants[k].0) == uid
    ensures r.Some? ==>
      exists k :: (&& 0 <= k < |participants| && Some(participants[k].0) != uid
                   && participants[k].1 == r.value
                   && forall j :: 0 <= j < k ==> Some(participants[j].0) == uid)
  {
    if participants == [] then None
    else if Some(participants[0].0) != uid then Some(participants[0].1)
    else
      var r := OtherParticipant(participants[1..], uid);
      assert forall k :: 0 < k < |participants| ==> participants[k] == participants[1..][k - 1];
      r
  }

  /** The name a conversation is listed under: the other participant's name, else `Conversation`. */
  function ChatName(participants: Participants, uid: Option<string>): (r: string)
    ensures r != ""
    ensures var o := OtherParticipant(participants, uid);
      r == if o.Some? && JsText.Truthy(o.value.username) then o.value.username.value else "Conversation"
  {
    var other := OtherParticipant(participants, uid);
    JsText.OrElse(if other.Some? then other.value.username else None, "Conversation")
  }

  /** `text.substring(0, 50)` counted in code units, or the empty string when there is no last message. */
  function Preview(text: Option<string>): (r: string)
    ensures JsText.Utf16Length(r) <= PreviewLength
    ensures text.None? ==> r == ""
    ensures text.Some? ==> |r| <= |text.value| && r == text.value[..|r|]
    ensures text.Some? && JsText.Utf16Length(text.value) <= PreviewLength ==> r == text.value
    ensures text.Some? && r != text.value ==> JsText.Utf16Length(text.value[..|r| + 1]) > PreviewLength
  {
    match text
    case None => ""
    case Some(t) => JsText.Utf16Prefix(t, PreviewLength)
  }

  /**
   * An emoji counts two code units: followed by 49 letters it is 50 characters but
   * 51 units long, and the preview keeps the emoji and 48 letters.
   */
  lemma PreviewCountsCodeUnits()
    ensures var t := "😀" + seq(49, _ => 'a');
      && |t| == 50 && JsText.Utf16Length(t) == 51
      && Preview(Some(t)) == "😀" + seq(48, _ => 'a')
  {
    var t := "😀" + seq(49, _ => 'a');
    var p := "😀" + seq(48, _ => 'a');
    JsText.Utf16LengthSingle('😀');
    JsText.Utf16LengthConcat("😀", seq(49, _ => 'a'));
    JsText.Utf16LengthConcat("😀", seq(48, _ => 'a'));
    assert t[..|p| + 1] == t && t[..|p|] == p;
    JsText.Utf16PrefixUnique(t, PreviewLength, |p|);
  }

  /** A summary line as rendered: both texts escaped, so neither can open a tag. */
  datatype SummaryLine = SummaryLine(name: string, lastMessage: string)

  /** `showChatsModal`'s line for one conversation: the chat name and the preview, each escaped. */
  function RenderSummary(participants: Participants, uid: Option<string>, lastText: Option<string>): (r: SummaryLine)
    ensures '<' !in r.name && '<' !in r.lastMessage
    ensures Html.UnescapeHtml(r.lastMessage) == Preview(lastText)
    ensures Html.UnescapeHtml(r.name) == ChatName(participants, uid)
  {
    Html.EscapeRoundTrip(ChatName(participants, uid));
    Html.EscapeRoundTrip(Preview(lastText));
    SummaryLine(Html.EscapeHtml(ChatName(participants, uid)), Html.EscapeHtml(Preview(lastText)))
  }
}
