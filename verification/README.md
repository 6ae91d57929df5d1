# GameHub Arcade client rules, modelled in Dafny

GameHub Arcade is a browser arcade with social features. `app.js` is its main client script. Most of it reads and writes a hosted realtime store and builds HTML. This project models the decision rules embedded in those handlers as pure Dafny functions over immutable datatypes, and proves what the handlers promise:

- **Preferences** (`preferences.dfy`): `toggleFavorite` and `togglePin` on a user's list of game ids. The first occurrence of the game is spliced out, or the game is pushed at the end. A pin list holds at most 3 games, and adding to a full one is refused without a write. Writes are modelled as `Action = NoWrite | Write(list)`.
- **Scores** (`scores.dfy`): `submitScore`. Without a session (a null or empty uid, both falsy in JavaScript) it rejects and writes nothing. Otherwise it runs the stats transaction (a missing node or field counts as 0) and appends one entry to the game's leaderboard. The store is a record of two maps.
- **Notifications** (`notifications.dfy`): the store's `orderByChild('timestamp').limitToLast(20)`, the local reversal for display, the single batched update that sets `read = true` for every unread notification shown, and the effect of that update on the store.
- **Html** (`html.dfy`): `escapeHtml`, with a decoder as its inverse.
- **Messages** (`messages.dfy`): the auth error table, notification texts and icons.
- **Chats** (`chats.dfy`): the other participant's name and the 50-character preview.
- **Forms** (`forms.dfy`): registration checks, the username change and the form feedback.
- **JsText** (`jstext.dfy`): the ECMAScript primitives these rely on. It covers `trim` with the full WhiteSpace/LineTerminator set, `.length` as a UTF-16 code-unit count, and `a || b` on strings where `''` is falsy.

The store path `notifications/{uid}/{id}/read` is modelled as the datatype `FlagPath(uid, id)`, not as a concatenated string. Store keys cannot contain `/`, so the string form is just as injective.

One inconsistency of the source is stated as a lemma rather than corrected. The register form checks the untrimmed username, while the rename form trims it, so a name of three spaces passes registration but is refused as a rename (`Forms.RegisterAcceptsBlankName`).

## Model

| member | source | states |
|---|---|---|
| Preferences.IndexOf | app.js:965 | `indexOf`: absent iff the game is not listed; otherwise the position of the first occurrence |
| Preferences.Toggled | app.js:965-973 | a listed game loses exactly its first occurrence: the result is the list before it followed by the list after it, in order (so also multiset minus one); an unlisted game is appended at the end |
| Preferences.ToggleFavorite | app.js:958-977 | no write without a session (a null or empty uid); otherwise the written list is the stored list (absent read as empty) with the first occurrence of the game spliced out, or the game appended; on a repeat-free list membership of the game flips and no repeat appears |
| Preferences.ToggledKeepsDistinct | app.js:965-973 | on a repeat-free list a toggle keeps it repeat-free and flips whether the game is in it |
| Preferences.FavoriteToggleTwice | app.js:965-975 | for a game not yet a favorite, toggling twice gives back the original list |
| Preferences.TogglePin | app.js:979-1002 | no write without a session (a null or empty uid) or when an unlisted game meets a list of 3 or more; otherwise the written list is the stored one with the first occurrence spliced out or the game appended; a list of at most 3 stays at most 3 |
| Preferences.PinsStayBounded | app.js:986-998 | after any sequence of pin toggles, a list that started with at most 3 games still has at most 3 |
| Preferences.FullPinListRejects | app.js:992-995 | pinning `d` on `[a, b, c]` writes nothing and leaves the list unchanged |
| Scores.GamesPlayed | app.js:486 | the games-played count as displayed: the stored field when present, 0 when the node or the field is missing |
| Scores.TotalScore | app.js:490 | the total score as displayed: the stored field when present, 0 when the node or the field is missing |
| Scores.StatsUpdate | app.js:587-592 | games played as read grows by exactly 1 and total score by exactly the score, with missing values read as 0; both fields are written |
| Scores.EntryName | app.js:581 | the entry name is the custom name, else the session name, else `Joueur`, where an empty string counts as absent; it is never empty |
| Scores.SubmitScore | app.js:573-595 | rejects iff the uid is null or empty; otherwise the user's stats advance by one game and the score, the game's board gains exactly the new entry at its end, and other users and boards are unchanged |
| Scores.SeriesAccumulates | app.js:587-592 | after any series of submissions, games played grew by the series length and total score by its sum |
| Scores.BoardsAppendOnly | app.js:594 | every leaderboard before a series of submissions is a prefix of the same board after it |
| Scores.AliceExample | app.js:573-595 | stats {3, 100} plus a score of 42 at `memory` become {4, 142}, and the entry `Alice`/42/`u1` is on the board |
| Html.Entity | app.js:412 | `&` becomes `&amp;`, `<` becomes `&lt;`, `>` becomes `&gt;`, any other character stays itself; no replacement contains `<` or `>` |
| Html.EscapeHtml | app.js:412 | the output contains no `<` or `>` and is at least as long as the input |
| Html.EscapeRoundTrip | app.js:412 | decoding the escaped string returns the input |
| Html.EscapeInjective | app.js:412 | two strings that escape alike are equal |
| Html.EscapeIdentityOnPlainText | app.js:412 | a string without `&`, `<`, `>` is copied unchanged |
| Html.EscapeConcat | app.js:412 | escaping a concatenation is concatenating the escapes |
| Messages.GetErrorMessage | app.js:377-388 | a known code gets its table message; the generic message is returned iff the code is not one of the six |
| Messages.ErrorMessagesDistinct | app.js:378-385 | the six codes have six different messages, none of them the generic one |
| Messages.AuthErrorTextAsWritten | app.js:285-289 | as written, the form looks up the provider's message text: a message that is itself a code gets that code's text, and any other message shows the generic text |
| Messages.AsWrittenHidesWrongPassword | app.js:100-108 | a wrong-password refusal whose code is in the table is still shown the generic text |
| Messages.AuthErrorText | app.js:377-388 | looked up by the provider's code, a known code gets its own message, and the generic text appears iff the code is unknown |
| Messages.NotificationText | app.js:922-937 | the four sender types give bold escaped sender plus a fixed sentence; `group_message` gives its fixed text; every other type gives `Nouvelle notification` |
| Messages.NotificationTextMarkupFixed | app.js:922-937 | a sender notification text holds exactly the two `<` of its bold tags whatever the sender's name; the other texts hold none |
| Messages.NotificationTextKeepsSender | app.js:924-931 | for a sender type, equal texts mean equal sender names |
| Messages.NotificationIcon | app.js:887-897 | each of the five known types gets its own table icon (friend request 👥, friend accepted ✅, game invite 🎮, both message types 💬); the generic icon 📢 is shown iff the type is not one of the five |
| Notifications.LastN | app.js:866-869 | the query result is the last `min(n, size)` entries of the ordered collection, in order |
| Notifications.Reversed | app.js:879 | the result has the same length, with entry `i` equal to entry `len-1-i` of the input |
| Notifications.DisplayList | app.js:866-879 | at most 20 entries are shown, and shown entry `i` is entry `i` counted from the end of the store-ordered collection |
| Notifications.DisplayNewestFirst | app.js:866-879 | over a timestamp-ordered collection the display is non-increasing in timestamp, and no omitted notification is newer than a shown one |
| Notifications.ReadUpdates | app.js:907-912 | the update holds a path iff it belongs to an unread notification shown, and every value it sets is `true` |
| Notifications.LoadNotifications | app.js:861-916 | the shown list is exactly the display list (the last 20 of the ordered collection, newest first); no update is sent iff every shown notification is already read; a sent update is exactly the read flags of the unread ones shown, set to `true` |
| Notifications.ApplyUpdate | app.js:915 | the multi-path update changes only the `read` flag of the listed existing notifications and creates or removes none |
| Notifications.OpenMarksShownRead | app.js:906-916 | one opening keeps every other field, never clears a read flag, and leaves every unread notification shown marked read |
| Notifications.ReadIsMonotone | app.js:906-916 | across any number of openings a read flag never returns to false and no other field changes |
| Chats.OtherParticipant | app.js:813-814 | the first entry whose identity differs from the session's; absent iff there is none |
| Chats.ChatName | app.js:820 | the other participant's name when there is another participant whose name is present and non-empty, `Conversation` otherwise; never empty |
| Chats.Preview | app.js:821 | the preview is a prefix of the last message of JavaScript length at most 50 code units, the whole message when it fits, and one more character would pass 50 units; empty when there is no message |
| Chats.PreviewCountsCodeUnits | app.js:821 | an emoji followed by 49 letters (50 characters, 51 code units) previews as the emoji and 48 letters |
| Chats.RenderSummary | app.js:820-821 | both rendered texts are free of `<`, and decode back exactly to the chat name and to the preview of the last message |
| Forms.ValidateRegistration | app.js:303-311 | registration proceeds iff password equals confirmation and the username has at least 3 code units; a mismatch is reported first |
| Forms.FormErrorText | app.js:304-310 | each refusal has its own inline message: the mismatch text exactly for a mismatch, the too-short text (also the rename form's, app.js:550) exactly for a short name |
| Forms.RegisterFeedback | app.js:301-317 | as written: a mismatch shows its message, then a username under 3 code units the too-short message; a valid form shows nothing on success, and on a provider refusal the table entry for the provider's message text, so the generic text whenever that text is not a code |
| Forms.RegisterFeedbackCorrected | app.js:301-317 | the same checks, but a provider refusal shows its code's message, and the generic text exactly when the code is unknown; it agrees with the as-written feedback whenever the message equals the code |
| Forms.LoginFeedback | app.js:284-289 | as written: nothing is shown iff sign-in succeeded; otherwise the table entry for the provider's message text, the generic text when that text is not a code |
| Forms.LoginFeedbackCorrected | app.js:284-289 | nothing is shown iff sign-in succeeded; a known code shows its message and an unknown one the generic text; it agrees with the as-written feedback whenever the message equals the code |
| Forms.LoginWrongPasswordExample | app.js:284-289 | a wrong-password refusal shows the generic text as written and `Mot de passe incorrect` once corrected |
| Forms.ChangeUsername | app.js:546-555 | refused iff the trimmed name is shorter than 3 code units; an accepted name is exactly the trimmed input, long enough and with no white space at either end |
| Forms.ChangeUsernameStable | app.js:546-556 | resubmitting an accepted name accepts it unchanged |
| Forms.RegisterAcceptsBlankName | app.js:303-311 | three spaces pass the register checks but are refused as a new username |
| JsText.TrimBy | app.js:546 | trimming keeps a contiguous piece of the input with no white space at either end, and everything cut is white space |
| JsText.Trim | app.js:546 | `trim()`: a contiguous piece of the input, everything cut from either end is JavaScript white space, and the result neither starts nor ends with it |
| JsText.TrimIdempotent | app.js:546 | trimming twice equals trimming once |
| JsText.Utf16Length | app.js:308 | the JavaScript length lies between the character count and twice it, and equals the character count on BMP-only text |
| JsText.Utf16LengthConcat | app.js:308 | the JavaScript length of a concatenation is the sum of the lengths |
| JsText.Utf16LengthSingle | app.js:308 | a one-character string has length 2 exactly for a character outside the Basic Multilingual Plane, 1 otherwise |
| JsText.TwoAstralCharsLengthFour | app.js:308 | two emoji make a string of JavaScript length 4, which passes the 3-unit minimum |
| JsText.Utf16LengthPrefix | app.js:821 | a shorter prefix is never longer in code units than a longer one |
| JsText.Utf16Prefix | app.js:821 | `substring(0, n)` on whole characters: a prefix of the input within `n` code units, the whole input when it fits, and extending it by one character would pass `n` |
| JsText.Utf16PrefixEndUnique | app.js:821 | two cut points that both fit the budget and cannot be pushed one character further are the same |
| JsText.Utf16PrefixUnique | app.js:821 | any prefix within `n` code units that cannot be extended by one character within `n` is exactly the `substring` result, so the result is determined |
| JsText.OrElse | app.js:581 | `a \|\| b`: the first operand when it is a non-empty string, the fallback otherwise |

## Findings

| source | as written | input that shows it | evidently intended | confidence | as-written member | corrected member |
|---|---|---|---|---|---|---|
| app.js:96, app.js:107, app.js:120, app.js:132, app.js:144, app.js:288, app.js:316, app.js:325-371 | the sign-up, sign-in and social sign-in functions return `error.message`, and the form handlers and social buttons pass it to `getErrorMessage`, whose table is keyed by codes such as `auth/wrong-password` | a refusal with code `auth/wrong-password` and message `The password is invalid or the user does not have a password.` shows `Une erreur est survenue` | look up `error.code`, so that `Mot de passe incorrect` is shown | medium, not executed (depends on the provider's message texts, none of which is a code) | Messages.AuthErrorTextAsWritten, Messages.AsWrittenHidesWrongPassword, Forms.RegisterFeedback, Forms.LoginFeedback | Messages.AuthErrorText, Forms.RegisterFeedbackCorrected, Forms.LoginFeedbackCorrected, Forms.LoginWrongPasswordExample |

## Left out

- Remote store and auth provider calls (`once`, `set`, `push`, `update`, `transaction`, sign-in popups): they are foreign I/O. The values they return are parameters, and the writes are returned as values.
- The transaction retry loop and cross-device races on the favorites/pins read-modify-write: they are library concurrency. Each operation is modelled as one atomic step.
- DOM construction, modals, event wiring, `window.*` callbacks and the session cache updates (`state.favoriteGames`, `state.pinnedGames`, `state.username`): UI plumbing.
- The online-user poll (app.js:1031-1046) and the live leaderboard subscription (app.js:390-410): timers and push I/O.
- The average score (`Math.round` of a division, app.js:494), date/locale formatting and the random particles: these involve floats, locale and randomness.
- Friends, chat sending and invites, moderation and the games: `friends.js`, `chat.js`, `leaderboard.js`, `moderation.js` and `games/*` are not part of this model.
- Notifications.LastN: the store's ordering by timestamp is taken as given. The fetched collection is a parameter, and the ordering lemma requires it to be timestamp-ordered.
- Notifications.ApplyUpdate: an update path with no existing notification would create a bare node in the store. The model ignores such paths, which the view never produces.
- Scores.StatsUpdate: scores and counters are unbounded integers. JavaScript's floating-point numbers, `NaN` and non-numeric stored fields are not modelled.
- Chats.Preview: when unit 50 falls inside a surrogate pair, `substring(0, 50)` keeps a lone high surrogate, while the model leaves the whole character out (49 units). Dafny characters are scalar values, so a lone surrogate cannot be represented.
- Messages.GetErrorMessage: object-prototype keys such as `constructor` would find an inherited property in the JavaScript table. The model treats them as unknown codes.
- Messages.NotificationIcon: a type naming an inherited object property such as `constructor` would find that property in the JavaScript icon table (app.js:897). The model treats such types as unknown and gives them the generic icon.
- The social sign-in buttons (app.js:325-371) are not modelled separately: they show their error text exactly as `Forms.LoginFeedback` does.
- Html.EscapeHtml: the `String(s)` conversion of non-string values (for example `undefined` becoming `"undefined"`) is not modelled. Inputs are strings.
