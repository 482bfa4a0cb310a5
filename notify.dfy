/** The text of the Discord webhook notification that public/script.js builds
    when a logged-in user submits a form (`sendToDiscord`), and the guard of
    the submit handler (`attachFormHandlers`) that decides whether a
    notification is sent at all. */
module Notify {
  import opened Js
  import opened Mentions
  import Gateway

  const Header := "Georgia State Roleplay. Cuz We Can."
  const Placeholder := "*n/a*"
  const DefaultTitle := "Portal Submission"
  const WebhookUsername := "Portal Logs"
  const EmbedColor := 0xf97316
  const Separator := "\n\n"
  const PlaceholderWebhookPrefix := "YOUR_"

  /** A form field: its name and its value, absent when there is none. */
  type Field = (string, Option<string>)

  /** The value shown for a field: the (formatted) value itself unless it is
      missing, empty or whitespace only, in which case `*n/a*`. */
  function ShownValue(formatted: Option<string>): (r: string)
    ensures Trim(r) != ""
    ensures Truthy(formatted) && Trim(formatted.value) != "" ==> r == formatted.value
    ensures !Truthy(formatted) || Trim(formatted.value) == "" ==> r == Placeholder
  {
    assert !Blank(Placeholder) by { assert !IsSpace(Placeholder[0]); }
    if Truthy(formatted) && Trim(formatted.value) != "" then formatted.value else Placeholder
  }

  /** The block of one field: the key in bold, a line break, and the shown
      value of the field after its ids are formatted as mentions. */
  function Block(key: string, raw: Option<string>): (b: string)
    ensures |b| > |key| + 6
    ensures b[..|key| + 6] == "**" + key + ":**\n"
    ensures b[|key| + 6..] == ShownValue(FormatDiscordIds(key, raw))
    ensures Trim(b[|key| + 6..]) != ""
  {
    var head := "**" + key + ":**\n";
    var b := head + ShownValue(FormatDiscordIds(key, raw));
    assert b[..|head|] == head;
    b
  }

  /** One block per field, in the order of the fields. */
  function Blocks(fields: seq<Field>): (bs: seq<string>)
    ensures |bs| == |fields|
    ensures forall i :: 0 <= i < |fields| ==> bs[i] == Block(fields[i].0, fields[i].1)
  {
    seq(|fields|, i requires 0 <= i < |fields| => Block(fields[i].0, fields[i].1))
  }

  /** The description: the header line, an empty line and the blocks, joined
      with blank lines. With no field it is the header and one separator;
      otherwise the header, two separators (around the empty line) and the
      joined blocks. */
  function Description(fields: seq<Field>): (d: string)
    ensures fields == [] ==> d == Header + Separator
    ensures fields != [] ==> d == Header + Separator + Separator + Join(Blocks(fields), Separator)
  {
    var bs := Blocks(fields);
    JoinAfterEmptyLine(Header, bs, Separator);
    Join([Header, ""] + bs, Separator)
  }

  /** Joining a line, an empty line and further lines. */
  lemma JoinAfterEmptyLine(first: string, rest: seq<string>, sep: string)
    ensures rest == [] ==> Join([first, ""] + rest, sep) == first + sep
    ensures rest != [] ==> Join([first, ""] + rest, sep) == first + sep + sep + Join(rest, sep)
  {
    JoinCons(first, [""] + rest, sep);
    assert [first, ""] + rest == [first] + ([""] + rest);
    if rest != [] {
      JoinCons("", rest, sep);
    }
  }

  /** `formName || "Portal Submission"` */
  function Title(formName: Option<string>): (t: string)
    ensures t != ""
    ensures Truthy(formName) ==> t == formName.value
    ensures !Truthy(formName) ==> t == DefaultTitle
  {
    if Truthy(formName) then formName.value else DefaultTitle
  }

  /** `user.displayName || user.username` */
  function Signature(u: Gateway.User): (name: string)
    ensures u.displayName != "" ==> name == u.displayName
    ensures u.displayName == "" ==> name == u.username
  {
    if u.displayName != "" then u.displayName else u.username
  }

  /** `Submitted by <name> (<username>#<discriminator>) | ID: <id>` */
  function Footer(u: Gateway.User): (f: string)
    ensures var head := "Submitted by " + Signature(u) + " (" + u.username + "#";
            && |f| == |head| + |u.discriminator| + 8 + |u.id|
            && f[..|head|] == head
            && f[|head|..|head| + |u.discriminator|] == u.discriminator
            && f[|head| + |u.discriminator|..|f| - |u.id|] == ") | ID: "
            && f[|f| - |u.id|..] == u.id
  {
    var head := "Submitted by " + Signature(u) + " (" + u.username + "#";
    var f := head + u.discriminator + ") | ID: " + u.id;
    assert f[..|head|] == head;
    assert f[|head|..|head| + |u.discriminator|] == u.discriminator;
    f
  }

  /** The embed of the webhook message; its timestamp is not modelled. */
  datatype Embed = Embed(title: string, description: string, color: int, footer: string)

  datatype Payload = Payload(username: string, embed: Embed)

  /** The message `sendToDiscord` posts to the webhook. */
  function BuildPayload(formName: Option<string>, fields: seq<Field>, u: Gateway.User): Payload
  {
    Payload(WebhookUsername, Embed(Title(formName), Description(fields), EmbedColor, Footer(u)))
  }

  /** What the submit handler does: refuse without a logged-in user, refuse
      without a usable webhook, or post the message. */
  datatype Submission = NotLoggedIn | NoWebhook | Post(webhook: string, payload: Payload)

  /** The submit handler of a logging form. The user check comes first; a
      webhook that is missing, empty or still the `YOUR_...` placeholder is
      refused; otherwise the message is built with the form's name (or the
      default title) and posted. */
  function Submit(currentUser: Option<Gateway.User>, webhook: Option<string>, formName: Option<string>, fields: seq<Field>): (r: Submission)
    ensures r.NotLoggedIn? <==> currentUser.None?
    ensures r.NoWebhook? <==>
              currentUser.Some? && (!Truthy(webhook) || StartsWith(webhook.value, PlaceholderWebhookPrefix))
    ensures r.Post? ==>
              && currentUser.Some? && Truthy(webhook)
              && r.webhook == webhook.value
              && r.payload.username == WebhookUsername
              && r.payload.embed.title == Title(formName)
              && r.payload.embed.description == Description(fields)
              && r.payload.embed.footer == Footer(currentUser.value)
              && r.payload.embed.color == EmbedColor
  {
    if currentUser.None? then NotLoggedIn
    else if !Truthy(webhook) || StartsWith(webhook.value, PlaceholderWebhookPrefix) then NoWebhook
    else
      var name := Title(formName);
      Post(webhook.value, BuildPayload(Some(name), fields, currentUser.value))
  }
}
