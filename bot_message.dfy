/** The Google Chat card the function posts for a build (`buildBotMessage` in
    PubSubChatFunction.java): one card with a fixed header and one section of
    six label/value widgets. */
module BotMessage {
  import opened Wrappers
  import opened BuildEvent

  /** The fields of a Cloud Build trigger the card shows. Either may be null in
      the API's answer; a trigger started from a connected repository has no
      trigger template at all. */
  datatype TriggerTemplate = TriggerTemplate(branchName: Option<string>)
  datatype BuildTrigger = BuildTrigger(name: Option<string>, triggerTemplate: Option<TriggerTemplate>)

  /** A key/value widget. A null content is kept as null: the chat client
      receives the widget without a value. */
  datatype KeyValue = KeyValue(topLabel: string, content: Option<string>)
  datatype WidgetMarkup = WidgetMarkup(keyValue: KeyValue)
  datatype Section = Section(widgets: seq<WidgetMarkup>)
  datatype CardHeader = CardHeader(title: string, imageUrl: string)
  datatype Card = Card(header: CardHeader, sections: seq<Section>)
  datatype Message = Message(cards: seq<Card>)

  /** Why formatting can fail: the trigger was found but has no trigger
      template, so reading its branch name dereferences null. */
  datatype FormatError = NullTriggerTemplate

  const Title := "Debo - The Deployer Bot"
  const ImageUrl := "https://goo.gl/aeDtrS"
  const Header := CardHeader(Title, ImageUrl)

  /** What a widget shows in place of an absent value. */
  const Placeholder := " - "

  /** The widget labels, in the order the section lists them. */
  const Labels: seq<string> :=
    ["Project id", "Trigger Name", "Branch Name", "Status", "Start Time", "Finish Time"]

  function Widget(key: string, content: Option<string>): WidgetMarkup {
    WidgetMarkup(KeyValue(key, content))
  }

  /** `v` itself when present, the placeholder otherwise. */
  function OrPlaceholder(v: Option<string>): (r: string)
    ensures v.None? ==> r == Placeholder
    ensures v.Some? ==> r == v.value
  {
    v.GetOr(Placeholder)
  }

  /** The shape every card of this bot has, whatever the build: exactly one
      card with the fixed header, exactly one section, and six widgets whose
      labels are `Labels` in order. */
  ghost predicate WellFormed(m: Message) {
    && |m.cards| == 1
    && m.cards[0].header == Header
    && |m.cards[0].sections| == 1
    && |m.cards[0].sections[0].widgets| == |Labels|
    && forall i :: 0 <= i < |Labels| ==> m.cards[0].sections[0].widgets[i].keyValue.topLabel == Labels[i]
  }

  /** The widgets of the only section of a well-formed card. */
  function WidgetsOf(m: Message): seq<WidgetMarkup>
    requires |m.cards| == 1 && |m.cards[0].sections| == 1
  {
    m.cards[0].sections[0].widgets
  }

  /** The first widget labelled `key`. A specification helper: the card is
      never searched by the bot itself, but stating what each label shows
      needs a way to name the widget carrying that label. */
  function Find(widgets: seq<WidgetMarkup>, key: string): (r: Option<KeyValue>)
    ensures r.Some? ==> r.value.topLabel == key
  {
    if widgets == [] then None
    else if widgets[0].keyValue.topLabel == key then Some(widgets[0].keyValue)
    else
      Find(widgets[1..], key)
  }

  /** Helper fact about `Find`: a label is found exactly when some widget
      carries it, and what is found is one of the widgets. */
  lemma {:induction false} FindSpec(widgets: seq<WidgetMarkup>, key: string)
    ensures Find(widgets, key).Some? <==> exists i :: 0 <= i < |widgets| && widgets[i].keyValue.topLabel == key
    ensures Find(widgets, key).Some? ==> WidgetMarkup(Find(widgets, key).value) in widgets
  {
    if widgets != [] && widgets[0].keyValue.topLabel != key {
      FindSpec(widgets[1..], key);
      if Find(widgets[1..], key).Some? {
        var i :| 0 <= i < |widgets[1..]| && widgets[1..][i].keyValue.topLabel == key;
        assert widgets[i + 1] == widgets[1..][i];
      }
      forall i | 1 <= i < |widgets| ensures widgets[i] == widgets[1..][i - 1] { }
    }
  }

  /** Helper fact about `Find`: looking up the label of widget `i` finds
      widget `i` itself when no earlier widget carries the same label. */
  lemma {:induction false} FindFirstLabelled(widgets: seq<WidgetMarkup>, i: nat)
    requires i < |widgets|
    requires forall j :: 0 <= j < i ==> widgets[j].keyValue.topLabel != widgets[i].keyValue.topLabel
    ensures Find(widgets, widgets[i].keyValue.topLabel) == Some(widgets[i].keyValue)
  {
    if i > 0 {
      var tail := widgets[1..];
      forall j | 0 <= j < i - 1
        ensures tail[j].keyValue.topLabel != tail[i - 1].keyValue.topLabel
      {
        assert tail[j] == widgets[j + 1];
      }
      FindFirstLabelled(tail, i - 1);
    }
  }

  /** In a well-formed card each label names exactly its own widget. */
  lemma FindInWellFormed(m: Message, i: nat)
    requires WellFormed(m) && i < |Labels|
    ensures Find(WidgetsOf(m), Labels[i]) == Some(WidgetsOf(m)[i].keyValue)
  {
    FindFirstLabelled(WidgetsOf(m), i);
  }

  /** The card for `info` and the trigger found for it, or the null
      dereference that aborts the invocation when the trigger has no template. */
  function BuildBotMessage(info: BuildInfo, trigger: Option<BuildTrigger>): (r: Result<Message, FormatError>)
    ensures r.Failure? <==> trigger.Some? && trigger.value.triggerTemplate.None?
    ensures r.Success? ==> WellFormed(r.value)
  {
    if trigger.Some? && trigger.value.triggerTemplate.None? then
      Failure(NullTriggerTemplate)
    else
      var widgets := [
        Widget("Project id", info.projectId),
        Widget("Trigger Name", if trigger.Some? then trigger.value.name else Some(Placeholder)),
        Widget("Branch Name",
               if trigger.Some? then trigger.value.triggerTemplate.value.branchName else Some(Placeholder)),
        Widget("Status", info.status),
        Widget("Start Time", Some(OrPlaceholder(info.startTime))),
        Widget("Finish Time", Some(OrPlaceholder(info.endTime)))
      ];
      Success(Message([Card(Header, [Section(widgets)])]))
  }

  /** Each label of a formatted card shows, under that label, the value
      `buildBotMessage` puts there: project id and status unchanged, the trigger's name
      and branch or the placeholder when no trigger was looked up, and the
      start and finish times or the placeholder when absent. */
  lemma ShownValues(info: BuildInfo, trigger: Option<BuildTrigger>)
    requires BuildBotMessage(info, trigger).Success?
    ensures var w := WidgetsOf(BuildBotMessage(info, trigger).value);
      && Find(w, "Project id") == Some(KeyValue("Project id", info.projectId))
      && Find(w, "Trigger Name") == Some(KeyValue("Trigger Name",
           if trigger.None? then Some(Placeholder) else trigger.value.name))
      && Find(w, "Branch Name") == Some(KeyValue("Branch Name",
           if trigger.None? then Some(Placeholder) else trigger.value.triggerTemplate.value.branchName))
      && Find(w, "Status") == Some(KeyValue("Status", info.status))
      && Find(w, "Start Time") == Some(KeyValue("Start Time",
           if info.startTime.None? then Some(Placeholder) else info.startTime))
      && Find(w, "Finish Time") == Some(KeyValue("Finish Time",
           if info.endTime.None? then Some(Placeholder) else info.endTime))
  {
    var m := BuildBotMessage(info, trigger).value;
    FindInWellFormed(m, 0);
    FindInWellFormed(m, 1);
    FindInWellFormed(m, 2);
    FindInWellFormed(m, 3);
    FindInWellFormed(m, 4);
    FindInWellFormed(m, 5);
  }
}
