/** The service worker: the notification a push message shows, the URL a
    click opens, and the choice between focusing an open window and opening
    a new one. */
module ServiceWorker {
  import opened Text

  const DefaultIcon: string := "/icon.png"
  const DefaultBadge: string := "/badge.png"
  const Vibrate: seq<int> := [100, 50, 100]
  const DefaultUrl: string := "/"

  /** A button on a notification. */
  datatype NotificationAction = NotificationAction(action: string, title: string)

  /** The JSON a push message carries; a missing field is None. The data
      object is modelled as a map of string values. */
  datatype PushData = PushData(
    title: string,
    body: Option<string>,
    icon: Option<string>,
    badge: Option<string>,
    data: Option<map<string, string>>,
    actions: Option<seq<NotificationAction>>)

  datatype NotificationOptions = NotificationOptions(
    body: Option<string>,
    icon: string,
    badge: string,
    vibrate: seq<int>,
    data: map<string, string>,
    actions: seq<NotificationAction>)

  datatype Shown = Shown(title: string, options: NotificationOptions)

  /** `value || fallback` on a string that may be missing: the empty string is falsy. */
  function OrDefault(value: Option<string>, fallback: string): (r: string)
    ensures value.Some? && value.value != "" ==> r == value.value
    ensures value.None? || value.value == "" ==> r == fallback
  {
    if value.Some? && value.value != "" then value.value else fallback
  }

  /** The push handler: without data nothing is shown; otherwise the
      message's title with its body, and every other option either taken
      from the message or given its default. */
  function OnPush(data: Option<PushData>): (r: Option<Shown>)
    ensures r.None? <==> data.None?
    ensures r.Some? ==>
      var d := data.value;
      var o := r.value.options;
      && r.value.title == d.title && o.body == d.body
      && o.icon == OrDefault(d.icon, DefaultIcon)
      && o.badge == OrDefault(d.badge, DefaultBadge)
      && o.vibrate == Vibrate
      && o.data == (if d.data.Some? then d.data.value else map[])
      && o.actions == (if d.actions.Some? then d.actions.value else [])
  {
    match data
    case None => None
    case Some(d) =>
      Some(Shown(d.title, NotificationOptions(
        d.body,
        OrDefault(d.icon, DefaultIcon),
        OrDefault(d.badge, DefaultBadge),
        Vibrate,
        if d.data.Some? then d.data.value else map[],
        if d.actions.Some? then d.actions.value else [])))
  }

  /** A message that names neither icon nor badge gets both defaults. */
  lemma PushDefaults(title: string)
    ensures var r := OnPush(Some(PushData(title, None, None, None, None, None)));
      && r.Some? && r.value.options.icon == DefaultIcon && r.value.options.badge == DefaultBadge
      && r.value.options.data == map[] && r.value.options.actions == []
  {
  }

  /** `data[key]`, missing when the key is absent. */
  function Lookup(data: map<string, string>, key: string): Option<string> {
    if key in data then Some(data[key]) else None
  }

  /** The `||` chain's candidates, in order: for a button click the
      action's own "<action>Url" entry, then `url`, then `actionUrl`. An empty
      `action` is a click on the notification's body. */
  function Candidates(action: string, data: map<string, string>): (r: seq<Option<string>>)
    ensures action != "" ==> |r| == 3 && r[0] == Lookup(data, action + "Url")
    ensures action == "" ==> |r| == 2
    ensures r[|r| - 2] == Lookup(data, "url") && r[|r| - 1] == Lookup(data, "actionUrl")
  {
    (if action != "" then [Lookup(data, action + "Url")] else [])
      + [Lookup(data, "url"), Lookup(data, "actionUrl")]
  }

  predicate Truthy(v: Option<string>) {
    v.Some? && v.value != ""
  }

  /** No candidate before position `i` is truthy. */
  predicate NoneTruthyBefore(cands: seq<Option<string>>, i: int) {
    forall j :: 0 <= j < i && j < |cands| ==> !Truthy(cands[j])
  }

  /** `a || b || ... || fallback`: the first truthy candidate, or the fallback. */
  function FirstTruthy(cands: seq<Option<string>>, fallback: string): (r: string)
    ensures NoneTruthyBefore(cands, |cands|) ==> r == fallback
    ensures forall i :: 0 <= i < |cands| && Truthy(cands[i]) && NoneTruthyBefore(cands, i) ==> r == cands[i].value
  {
    if cands == [] then fallback
    else if Truthy(cands[0]) then cands[0].value
    else
      var r := FirstTruthy(cands[1..], fallback);
      assert forall i :: 1 <= i <= |cands| && NoneTruthyBefore(cands, i) ==> NoneTruthyBefore(cands[1..], i - 1);
      r
  }

  /** The URL a click opens: the first non-empty candidate, else "/". */
  function UrlToOpen(action: string, notificationData: Option<map<string, string>>): (r: string)
    ensures r != ""
    ensures var data := if notificationData.Some? then notificationData.value else map[];
      && (action != "" && Truthy(Lookup(data, action + "Url")) ==> r == data[action + "Url"])
      && (action == "" && Truthy(Lookup(data, "url")) ==> r == data["url"])
  {
    var data := if notificationData.Some? then notificationData.value else map[];
    FirstTruthyNonEmpty(Candidates(action, data), DefaultUrl);
    FirstTruthy(Candidates(action, data), DefaultUrl)
  }

  /** Whatever the candidates, a non-empty fallback makes the result non-empty. */
  lemma {:induction false} FirstTruthyNonEmpty(cands: seq<Option<string>>, fallback: string)
    requires fallback != ""
    ensures FirstTruthy(cands, fallback) != ""
    decreases |cands|
  {
    if cands != [] && !Truthy(cands[0]) {
      FirstTruthyNonEmpty(cands[1..], fallback);
    }
  }

  /** Only when no candidate is set does a click open "/"; an action without
      an entry of its own falls back to the body click's URL. */
  lemma UrlToOpenFallbacks(action: string, data: map<string, string>)
    ensures (!Truthy(Lookup(data, "url")) && !Truthy(Lookup(data, "actionUrl"))
             && (action == "" || !Truthy(Lookup(data, action + "Url")))) ==> UrlToOpen(action, Some(data)) == DefaultUrl
    ensures action != "" && !Truthy(Lookup(data, action + "Url")) ==> UrlToOpen(action, Some(data)) == UrlToOpen("", Some(data))
    ensures UrlToOpen(action, None) == DefaultUrl
  {
    var c := Candidates(action, data);
    if action != "" && !Truthy(Lookup(data, action + "Url")) {
      assert c[1..] == Candidates("", data);
    }
    assert Candidates(action, map[]) == (if action != "" then [None] else []) + [None, None];
  }

  /** A window client matched by the click handler; `canFocus` is `'focus' in client`. */
  datatype Client = Client(id: string, canFocus: bool)

  datatype ClickOutcome = FocusAndNavigate(index: nat, url: string) | OpenWindow(url: string) | NoWindow

  /** The loop over the matched clients: the first that can be focused is
      focused and navigated and no other client is used; only when none can
      be, a new window opens, if the browser offers `openWindow`. */
  method ChooseWindow(clientList: seq<Client>, url: string, canOpenWindow: bool) returns (outcome: ClickOutcome)
    ensures outcome.FocusAndNavigate? <==> exists i :: 0 <= i < |clientList| && clientList[i].canFocus
    ensures outcome.FocusAndNavigate? ==>
      && outcome.index < |clientList| && clientList[outcome.index].canFocus && outcome.url == url
      && forall j :: 0 <= j < outcome.index ==> !clientList[j].canFocus
    ensures outcome.OpenWindow? <==> canOpenWindow && forall i :: 0 <= i < |clientList| ==> !clientList[i].canFocus
    ensures outcome.OpenWindow? ==> outcome.url == url
  {
    var i := 0;
    while i < |clientList|
      invariant 0 <= i <= |clientList|
      invariant forall j :: 0 <= j < i ==> !clientList[j].canFocus
    {
      if clientList[i].canFocus {
        return FocusAndNavigate(i, url);
      }
      i := i + 1;
    }
    if canOpenWindow {
      return OpenWindow(url);
    }
    return NoWindow;
  }

  /** The click handler: the URL chosen from the notification's data, then
      the window choice for it. */
  method OnNotificationClick(action: string, notificationData: Option<map<string, string>>,
                             clientList: seq<Client>, canOpenWindow: bool) returns (outcome: ClickOutcome)
    ensures outcome.FocusAndNavigate? || outcome.OpenWindow? ==> outcome.url == UrlToOpen(action, notificationData) && outcome.url != ""
    ensures outcome.NoWindow? <==> !canOpenWindow && forall i :: 0 <= i < |clientList| ==> !clientList[i].canFocus
  {
    var url := UrlToOpen(action, notificationData);
    outcome := ChooseWindow(clientList, url, canOpenWindow);
  }
}
