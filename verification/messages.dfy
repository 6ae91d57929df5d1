/**
 * Fixed text tables of the client (app.js `getErrorMessage`,
 * `getNotificationText`, the notification icon table), and what the sign-in
 * and sign-up handlers show when the auth provider refuses.
 */
module Messages {
  import Html

  /** The message shown for any error the table does not know. */
  const GenericError := "Une erreur est survenue"

  /** The auth error codes the client translates, with their French messages. */
  const ErrorMessages: map<string, string> := map[
    "auth/email-already-in-use" := "Cette adresse email est déjà utilisée",
    "auth/invalid-email" := "Adresse email invalide",
    "auth/weak-password" := "Le mot de passe doit faire au moins 6 caractères",
    "auth/user-not-found" := "Aucun compte trouvé avec cette adresse",
    "auth/wrong-password" := "Mot de passe incorrect",
    "auth/too-many-requests" := "Trop de tentatives, réessayez plus tard"
  ]

  /** `getErrorMessage`: the table's message for a known code, the generic message for anything else. */
  function GetErrorMessage(code: string): (r: string)
    ensures code in ErrorMessages ==> r == ErrorMessages[code]
    ensures code !in ErrorMessages <==> r == GenericError
  {
    if code in ErrorMessages then ErrorMessages[code] else GenericError
  }

  /** The six known codes each get their own message: no two share one, none is the generic one. */
  lemma ErrorMessagesDistinct(a: string, b: string)
    requires a in ErrorMessages && b in ErrorMessages && a != b
    ensures GetErrorMessage(a) != GetErrorMessage(b)
    ensures GetErrorMessage(a) != GenericError
  {
  }

  /** A refusal from the auth provider: its machine code and its human-readable message. */
  datatype AuthFailure = AuthFailure(code: string, message: string)

  /**
   * What the sign-in and sign-up forms show, as written: the handlers hand the
   * provider's `message` (not its `code`) to the code-keyed table.
   */
  function AuthErrorTextAsWritten(e: AuthFailure): (r: string)
    ensures e.message !in ErrorMessages ==> r == GenericError
    ensures e.message in ErrorMessages ==> r == ErrorMessages[e.message]
  {
    GetErrorMessage(e.message)
  }

  /** A wrong password: the provider reports `auth/wrong-password`, yet the form shows the generic message. */
  lemma AsWrittenHidesWrongPassword()
    ensures var e := AuthFailure("auth/wrong-password", "The password is invalid or the user does not have a password.");
      && e.code in ErrorMessages
      && AuthErrorTextAsWritten(e) == GenericError
      && AuthErrorTextAsWritten(e) != ErrorMessages[e.code]
  {
  }

  /** What the forms evidently mean to show: the table's entry for the provider's code. */
  function AuthErrorText(e: AuthFailure): (r: string)
    ensures e.code in ErrorMessages <==> r != GenericError
    ensures e.code in ErrorMessages ==> r == ErrorMessages[e.code]
  {
    GetErrorMessage(e.code)
  }

  /** Notification types whose text names the sender, and what follows the name. */
  const SenderSuffix: map<string, string> := map[
    "friend_request" := " vous a envoyé une demande d'ami",
    "friend_accepted" := " a accepté votre demande d'ami",
    "new_message" := " vous a envoyé un message",
    "game_invite" := " vous invite à jouer"
  ]

  const GroupMessageText := "Nouveau message dans un groupe"
  const DefaultNotificationText := "Nouvelle notification"

  /** `getNotificationText`: a sentence per known type, with the sender's name escaped in bold. */
  function NotificationText(kind: string, fromUsername: string): (r: string)
    ensures kind in SenderSuffix ==>
      r == "<strong>" + Html.EscapeHtml(fromUsername) + "</strong>" + SenderSuffix[kind]
    ensures kind == "group_message" ==> r == GroupMessageText
    ensures kind !in SenderSuffix && kind != "group_message" ==> r == DefaultNotificationText
  {
    if kind in SenderSuffix then "<strong>" + Html.EscapeHtml(fromUsername) + "</strong>" + SenderSuffix[kind]
    else if kind == "group_message" then GroupMessageText
    else DefaultNotificationText
  }

  /** How many times `c` occurs in `s`. */
  function Occurrences(s: string, c: char): (n: nat)
    ensures n == 0 <==> c !in s
  {
    if s == [] then 0 else (if s[0] == c then 1 else 0) + Occurrences(s[1..], c)
  }

  /** Occurrences add up over a concatenation. */
  lemma {:induction false} OccurrencesConcat(a: string, b: string, c: char)
    ensures Occurrences(a + b, c) == Occurrences(a, c) + Occurrences(b, c)
  {
    if a != [] {
      assert (a + b)[0] == a[0] && (a + b)[1..] == a[1..] + b;
      OccurrencesConcat(a[1..], b, c);
    } else {
      assert a + b == b;
    }
  }

  /**
   * The sender's name cannot add markup: a named notification holds exactly the two
   * `<` of its own bold tags, whatever the name, and every other text holds none.
   */
  lemma NotificationTextMarkupFixed(kind: string, fromUsername: string)
    ensures Occurrences(NotificationText(kind, fromUsername), '<') == if kind in SenderSuffix then 2 else 0
  {
    if kind !in SenderSuffix {
      assert '<' !in GroupMessageText && '<' !in DefaultNotificationText;
    } else {
      var name := Html.EscapeHtml(fromUsername);
      var suffix := SenderSuffix[kind];
      SuffixesPlain(kind);
      var open, close := "<strong>", "</strong>";
      assert open[1..] == "strong>" && '<' !in open[1..];
      assert close[1..] == "/strong>" && '<' !in close[1..];
      OccurrencesConcat(open, name, '<');
      OccurrencesConcat(open + name, close, '<');
      OccurrencesConcat(open + name + close, suffix, '<');
    }
  }

  /** No sentence ending contains markup. */
  lemma SuffixesPlain(kind: string)
    requires kind in SenderSuffix
    ensures '<' !in SenderSuffix[kind]
  {
  }

  /** The sender's name is recoverable from a named notification's text: nothing is lost in escaping. */
  lemma NotificationTextKeepsSender(kind: string, a: string, b: string)
    requires kind in SenderSuffix
    requires NotificationText(kind, a) == NotificationText(kind, b)
    ensures a == b
  {
    var ea, eb := Html.EscapeHtml(a), Html.EscapeHtml(b);
    var suffix := SenderSuffix[kind];
    var ta := "<strong>" + ea + "</strong>" + suffix;
    var tb := "<strong>" + eb + "</strong>" + suffix;
    assert |ea| == |eb|;
    assert ea == ta[8..8 + |ea|];
    assert eb == tb[8..8 + |eb|];
    Html.EscapeInjective(a, b);
  }

  /** The icon shown beside a notification, with a generic one for unknown types. */
  function NotificationIcon(kind: string): (r: string)
    ensures kind !in {"friend_request", "friend_accepted", "new_message", "game_invite", "group_message"} <==> r == "📢"
    ensures kind == "friend_request" ==> r == "👥"
    ensures kind == "friend_accepted" ==> r == "✅"
    ensures kind == "game_invite" ==> r == "🎮"
    ensures kind == "new_message" || kind == "group_message" ==> r == "💬"
  {
    match kind
    case "friend_request" => "👥"
    case "friend_accepted" => "✅"
    case "new_message" => "💬"
    case "game_invite" => "🎮"
    case "group_message" => "💬"
    case _ => "📢"
  }
}
