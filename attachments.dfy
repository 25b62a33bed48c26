/**
 * The attachment action handler (actions/class-action-attachments.php):
 * the table of description templates for the actions `create`, `update`
 * and `delete`, the three host hooks that each log one activity record,
 * and the callbacks that turn a stored record into a sentence.
 */
module Attachments {
  import opened Php

  /** A piece of a description template: literal text, or the placeholder `%n$s` for argument n. */
  datatype Segment = Lit(text: string) | Arg(position: nat)

  /** A description template: `sprintf` format text cut at its placeholders. */
  type Template = seq<Segment>

  /** Every placeholder of `t` names one of `count` arguments (`sprintf` fails otherwise). */
  predicate Fits(t: Template, count: nat) {
    forall i :: 0 <= i < |t| ==> t[i].Arg? ==> 1 <= t[i].position <= count
  }

  /** The argument positions `t` uses, in order of appearance. */
  function Positions(t: Template): seq<nat> {
    if t == [] then []
    else (if t[0].Arg? then [t[0].position] else []) + Positions(t[1..])
  }

  /** A segment with its placeholder, if any, replaced by a literal holding its argument. */
  function Fill(segment: Segment, args: seq<string>): Segment
    requires segment.Arg? ==> 1 <= segment.position <= |args|
  {
    if segment.Arg? then Lit(args[segment.position - 1]) else segment
  }

  /** Every placeholder of `t` replaced by a literal holding its argument. */
  function Substitute(t: Template, args: seq<string>): Template
    requires Fits(t, |args|)
  {
    if t == [] then [] else [Fill(t[0], args)] + Substitute(t[1..], args)
  }

  /** The text of a template, placeholders contributing nothing. */
  function LiteralText(t: Template): string {
    if t == [] then "" else (if t[0].Lit? then t[0].text else "") + LiteralText(t[1..])
  }

  /**
   * `sprintf` with positional `%n$s` placeholders: the result is the text of
   * the template once every placeholder has been replaced by its argument.
   */
  function Render(t: Template, args: seq<string>): (r: string)
    requires Fits(t, |args|)
    ensures r == LiteralText(Substitute(t, args))
  {
    if t == [] then ""
    else
      assert (Substitute(t, args))[1..] == Substitute(t[1..], args);
      (match t[0] case Lit(text) => text case Arg(p) => args[p - 1]) + Render(t[1..], args)
  }

  /** A template made of two parts that fit fits too. */
  lemma FitsAppend(t1: Template, t2: Template, count: nat)
    requires Fits(t1, count) && Fits(t2, count)
    ensures Fits(t1 + t2, count)
  {
    forall i | 0 <= i < |t1 + t2|
      ensures (t1 + t2)[i].Arg? ==> 1 <= (t1 + t2)[i].position <= count
    {
      if i < |t1| {
        assert (t1 + t2)[i] == t1[i];
      } else {
        assert (t1 + t2)[i] == t2[i - |t1|];
      }
    }
  }

  /** Substitution works segment by segment, so it distributes over concatenation. */
  lemma {:induction false} SubstituteAppend(t1: Template, t2: Template, args: seq<string>)
    requires Fits(t1, |args|) && Fits(t2, |args|)
    ensures Fits(t1 + t2, |args|)
    ensures Substitute(t1 + t2, args) == Substitute(t1, args) + Substitute(t2, args)
  {
    FitsAppend(t1, t2, |args|);
    if t1 == [] {
      assert t1 + t2 == t2;
    } else {
      assert (t1 + t2)[0] == t1[0];
      assert (t1 + t2)[1..] == t1[1..] + t2;
      SubstituteAppend(t1[1..], t2, args);
    }
  }

  /** The literal text of two templates together is the text of each, concatenated. */
  lemma {:induction false} LiteralTextAppend(t1: Template, t2: Template)
    ensures LiteralText(t1 + t2) == LiteralText(t1) + LiteralText(t2)
  {
    if t1 == [] {
      assert t1 + t2 == t2;
    } else {
      assert (t1 + t2)[0] == t1[0];
      assert (t1 + t2)[1..] == t1[1..] + t2;
      LiteralTextAppend(t1[1..], t2);
    }
  }

  /** Rendering a template made of two parts renders each part in turn. */
  lemma RenderAppend(t1: Template, t2: Template, args: seq<string>)
    requires Fits(t1, |args|) && Fits(t2, |args|)
    ensures Fits(t1 + t2, |args|)
    ensures Render(t1 + t2, args) == Render(t1, args) + Render(t2, args)
  {
    SubstituteAppend(t1, t2, args);
    LiteralTextAppend(Substitute(t1, args), Substitute(t2, args));
  }

  /**
   * A sentence shaped like every attachment description: the actor, then
   * `lead` (the verb between spaces and the opening `&quot;`), the object
   * name, the closing `&quot;` and a space, the relative time, a full stop.
   */
  function Sentence(lead: string): Template {
    [Arg(1), Lit(lead), Arg(2), Lit("&quot; "), Arg(3), Lit(".")]
  }

  /** Filling a sentence template gives the actor, the verb, the quoted name and the time, in that order. */
  lemma RenderSentence(lead: string, author: string, name: string, ago: string)
    ensures Fits(Sentence(lead), 3)
    ensures Render(Sentence(lead), [author, name, ago]) == author + lead + name + "&quot; " + ago + "."
  {
    var args := [author, name, ago];
    var head, middle, tail := [Arg(1), Lit(lead)], [Arg(2), Lit("&quot; ")], [Arg(3), Lit(".")];
    assert Sentence(lead) == head + (middle + tail);
    RenderArgThenText(1, lead, args);
    RenderArgThenText(2, "&quot; ", args);
    RenderArgThenText(3, ".", args);
    RenderAppend(middle, tail, args);
    RenderAppend(head, middle + tail, args);
  }

  /** A placeholder followed by literal text renders as the argument followed by the text. */
  lemma RenderArgThenText(position: nat, text: string, args: seq<string>)
    requires 1 <= position <= |args|
    ensures Fits([Arg(position), Lit(text)], |args|)
    ensures Render([Arg(position), Lit(text)], args) == args[position - 1] + text
  {
    assert [Arg(position), Lit(text)][1..] == [Lit(text)];
    assert [Lit(text)][1..] == [];
  }

  /** A sentence template uses the placeholders 1, 2 and 3, each once and in that order. */
  lemma SentencePositions(lead: string)
    ensures Positions(Sentence(lead)) == [1, 2, 3]
  {
    var head, middle, tail := [Arg(1), Lit(lead)], [Arg(2), Lit("&quot; ")], [Arg(3), Lit(".")];
    assert Sentence(lead) == head + (middle + tail);
    assert head[1..] == [Lit(lead)] && middle[1..] == [Lit("&quot; ")] && tail[1..] == [Lit(".")];
    PositionsAppend(middle, tail);
    PositionsAppend(head, middle + tail);
  }

  /** The positions of two templates together are those of each, in turn. */
  lemma {:induction false} PositionsAppend(t1: Template, t2: Template)
    ensures Positions(t1 + t2) == Positions(t1) + Positions(t2)
  {
    if t1 == [] {
      assert t1 + t2 == t2;
    } else {
      assert (t1 + t2)[0] == t1[0];
      assert (t1 + t2)[1..] == t1[1..] + t2;
      PositionsAppend(t1[1..], t2);
    }
  }

  /** The labels of one action; only the description is used here. */
  datatype ActionLabels = ActionLabels(description: Template)

  /**
   * The `action_callbacks` table, English text through `esc_html__`, which
   * writes the double quotes as `&quot;`.
   */
  const ActionCallbacks: map<string, ActionLabels> :=
    map[
      "create" := ActionLabels(Sentence(" uploaded &quot;")),
      "update" := ActionLabels(Sentence(" edited &quot;")),
      "delete" := ActionLabels(Sentence(" deleted &quot;"))
    ]

  /** The table holds exactly `create`, `update` and `delete`, each with the placeholders 1, 2, 3 in order. */
  lemma ActionCallbacksShape()
    ensures ActionCallbacks.Keys == {"create", "update", "delete"}
    ensures forall a :: a in ActionCallbacks ==>
              Positions(ActionCallbacks[a].description) == [1, 2, 3] && Fits(ActionCallbacks[a].description, 3)
  {
    forall a | a in ActionCallbacks
      ensures Positions(ActionCallbacks[a].description) == [1, 2, 3] && Fits(ActionCallbacks[a].description, 3)
    {
      DescriptionShape(a);
    }
  }

  /** One registered description is a sentence template, with the placeholders 1, 2, 3 in order. */
  lemma DescriptionShape(action: string)
    requires action in ActionCallbacks
    ensures Positions(ActionCallbacks[action].description) == [1, 2, 3]
    ensures Fits(ActionCallbacks[action].description, 3)
  {
    var description := ActionCallbacks[action].description;
    assert description == Sentence(description[1].text);
    SentencePositions(description[1].text);
  }

  /** The host hooks the handler subscribes to, and the action each one logs. */
  function HookAction(hook: string): (action: Option<string>)
    ensures action.Some? <==> hook in {"add_attachment", "edit_attachment", "delete_attachment"}
    ensures action.Some? ==> action.value in ActionCallbacks
    ensures hook == "add_attachment" ==> action == Some("create")
    ensures hook == "edit_attachment" ==> action == Some("update")
    ensures hook == "delete_attachment" ==> action == Some("delete")
  {
    if hook == "add_attachment" then Some("create")
    else if hook == "edit_attachment" then Some("update")
    else if hook == "delete_attachment" then Some("delete")
    else None
  }

  /** One activity record: what changed, which object, and its name at the time. */
  datatype ActivityRecord = ActivityRecord(
    objectType: string,
    objectSubtype: string,
    objectName: string,
    objectId: int,
    action: string)

  /** The host's answers about an attachment id at the time of an event: its title and its MIME type. */
  datatype Host = Host(title: int -> string, mimeType: int -> string)

  /** The host's display helpers for an activity post of type P: the author link and "how long ago". */
  datatype View<-P> = View(authorLink: P -> string, howLongAgo: P -> string)

  /** Every record was logged by the attachment handler with an action it has a template for. */
  predicate LoggedAttachments(records: seq<ActivityRecord>) {
    forall i :: 0 <= i < |records| ==>
      records[i].objectType == "attachment" && records[i].action in ActionCallbacks
  }

  /** The activity store that `wp_insert_user_activity` writes to: records are only ever appended. */
  class ActivityStore {
    var records: seq<ActivityRecord>

    constructor ()
      ensures records == []
    {
      records := [];
    }

    method Insert(record: ActivityRecord)
      modifies this
      ensures records == old(records) + [record]
    {
      records := records + [record];
    }
  }

  /** `WP_User_Activity_Action_Attachment` */
  class AttachmentActions {
    const objectType: string := "attachment"
    const actionCallbacks: map<string, ActionLabels> := ActionCallbacks
    const store: ActivityStore

    constructor (store: ActivityStore)
      ensures this.store == store
    {
      this.store := store;
    }

    /** The description template registered for an action. */
    function GetActivityAction(action: string): Template
      requires action in actionCallbacks
    {
      actionCallbacks[action].description
    }

    /** Renders a record as "author uploaded &quot;name&quot; time." */
    function CreateActionCallback<P>(post: P, meta: ActivityRecord, view: View<P>): (r: string)
      ensures r == view.authorLink(post) + " uploaded &quot;" + meta.objectName + "&quot; " + view.howLongAgo(post) + "."
    {
      RenderSentence(" uploaded &quot;", view.authorLink(post), meta.objectName, view.howLongAgo(post));
      Render(GetActivityAction("create"), [view.authorLink(post), meta.objectName, view.howLongAgo(post)])
    }

    /** Renders a record as "author edited &quot;name&quot; time." */
    function UpdateActionCallback<P>(post: P, meta: ActivityRecord, view: View<P>): (r: string)
      ensures r == view.authorLink(post) + " edited &quot;" + meta.objectName + "&quot; " + view.howLongAgo(post) + "."
    {
      RenderSentence(" edited &quot;", view.authorLink(post), meta.objectName, view.howLongAgo(post));
      Render(GetActivityAction("update"), [view.authorLink(post), meta.objectName, view.howLongAgo(post)])
    }

    /** Renders a deletion with the `update` template, as the code is written. */
    function DeleteActionCallback<P>(post: P, meta: ActivityRecord, view: View<P>): (r: string)
      ensures r == view.authorLink(post) + " edited &quot;" + meta.objectName + "&quot; " + view.howLongAgo(post) + "."
    {
      RenderSentence(" edited &quot;", view.authorLink(post), meta.objectName, view.howLongAgo(post));
      Render(GetActivityAction("update"), [view.authorLink(post), meta.objectName, view.howLongAgo(post)])
    }

    /** Renders a deletion with the `delete` template, as the table evidently intends. */
    function IntendedDeleteActionCallback<P>(post: P, meta: ActivityRecord, view: View<P>): (r: string)
      ensures r == view.authorLink(post) + " deleted &quot;" + meta.objectName + "&quot; " + view.howLongAgo(post) + "."
    {
      RenderSentence(" deleted &quot;", view.authorLink(post), meta.objectName, view.howLongAgo(post));
      Render(GetActivityAction("delete"), [view.authorLink(post), meta.objectName, view.howLongAgo(post)])
    }

    /**
     * A deletion reads as an edit: the delete callback's sentence is the
     * update callback's, and never the sentence of the `delete` template.
     */
    lemma DeleteRendersAsEdit<P>(post: P, meta: ActivityRecord, view: View<P>)
      ensures DeleteActionCallback(post, meta, view) == UpdateActionCallback(post, meta, view)
      ensures DeleteActionCallback(post, meta, view) != IntendedDeleteActionCallback(post, meta, view)
    {
    }

    /** The record one event logs: the attachment's MIME type and title are read now and kept. */
    function AttachmentRecord(action: string, attachmentId: int, host: Host): (r: ActivityRecord)
      ensures r.objectType == "attachment" && r.objectId == attachmentId && r.action == action
      ensures r.objectSubtype == host.mimeType(attachmentId) && r.objectName == host.title(attachmentId)
      ensures action in ActionCallbacks ==> LoggedAttachments([r])
    {
      ActivityRecord(objectType, host.mimeType(attachmentId), host.title(attachmentId), attachmentId, action)
    }

    /** `add_attachment_activity`: inserts one record for the attachment. */
    method AddAttachmentActivity(action: string, attachmentId: int, host: Host)
      modifies store
      ensures store.records == old(store.records) + [AttachmentRecord(action, attachmentId, host)]
    {
      store.Insert(AttachmentRecord(action, attachmentId, host));
    }

    /** Hook `add_attachment`: logs `create`. */
    method AddAttachment(attachmentId: int, host: Host)
      modifies store
      ensures store.records == old(store.records) + [AttachmentRecord("create", attachmentId, host)]
    {
      AddAttachmentActivity("create", attachmentId, host);
    }

    /** Hook `edit_attachment`: logs `update`. */
    method EditAttachment(attachmentId: int, host: Host)
      modifies store
      ensures store.records == old(store.records) + [AttachmentRecord("update", attachmentId, host)]
    {
      AddAttachmentActivity("update", attachmentId, host);
    }

    /** Hook `delete_attachment`: logs `delete`. */
    method DeleteAttachment(attachmentId: int, host: Host)
      modifies store
      ensures store.records == old(store.records) + [AttachmentRecord("delete", attachmentId, host)]
    {
      AddAttachmentActivity("delete", attachmentId, host);
    }

    /**
     * The host firing `hook` for an attachment: the three subscribed hooks
     * each append exactly one record with their action, any other hook
     * leaves the store as it was.
     */
    method Fire(hook: string, attachmentId: int, host: Host)
      modifies store
      ensures HookAction(hook).Some? ==>
                store.records == old(store.records) + [AttachmentRecord(HookAction(hook).value, attachmentId, host)]
      ensures HookAction(hook).None? ==> store.records == old(store.records)
      ensures LoggedAttachments(old(store.records)) ==> LoggedAttachments(store.records)
    {
      if hook == "add_attachment" {
        AddAttachment(attachmentId, host);
      } else if hook == "edit_attachment" {
        EditAttachment(attachmentId, host);
      } else if hook == "delete_attachment" {
        DeleteAttachment(attachmentId, host);
      }
    }
  }

  /**
   * Attachment 42, `cat.png` of type `image/png`, is uploaded and then
   * renamed `dog.png`: two records, each with the name of its own time, and
   * the upload still renders with the name it was uploaded under.
   */
  method UploadScenario<P>(post: P, view: View<P>) returns (records: seq<ActivityRecord>, text: string)
    ensures records == [ActivityRecord("attachment", "image/png", "cat.png", 42, "create"),
                        ActivityRecord("attachment", "image/png", "dog.png", 42, "update")]
    ensures text == view.authorLink(post) + " uploaded &quot;" + "cat.png" + "&quot; " + view.howLongAgo(post) + "."
  {
    var store := new ActivityStore();
    var handler := new AttachmentActions(store);
    var atUpload := Host(id => if id == 42 then "cat.png" else "", id => if id == 42 then "image/png" else "");
    handler.Fire("add_attachment", 42, atUpload);
    var renamed := Host(id => if id == 42 then "dog.png" else "", atUpload.mimeType);
    handler.Fire("edit_attachment", 42, renamed);
    records := store.records;
    text := handler.CreateActionCallback(post, store.records[0], view);
  }
}
