/**
 What a provider's operations say to the agent and to Virtual Kubelet, in terms of the Pod's labels and fields as they
 are written (provider/provider.go, provider/conversion.go).
 */
module ProviderEffects {
  import opened Text
  import opened Labels
  import opened PodStatus
  import opened Provider
  import opened ProviderHistory

  /** The Pod is one a user created: not labelled as untracked. */
  predicate UsersOwn(labels: LabelMap) {
    !("supernetes-workload/kind" in labels && labels["supernetes-workload/kind"] == "untracked")
  }

  /** A map holds exactly the labels under a prefix, without it. */
  ghost predicate Strips(names: LabelMap, labels: LabelMap, prefix: string) {
    forall name: string ::
      && (name in names <==> prefix + name in labels)
      && (name in names ==> names[name] == labels[prefix + name])
  }

  lemma UnscopedStrips(labels: LabelMap, scope: string)
    ensures Strips(Unscoped(labels, scope), labels, scope + "/")
  {
    hide Unscoped;
    forall name: string
      ensures name in Unscoped(labels, scope) <==> scope + "/" + name in labels
      ensures name in Unscoped(labels, scope) ==> Unscoped(labels, scope)[name] == labels[scope + "/" + name]
    {
      UnscopedHas(labels, scope, name);
    }
  }

  /** The metadata sent for a Pod: its name, its identifier label or the empty string, and its extras. */
  lemma MetaSent(name: string, labels: LabelMap)
    ensures var meta := Meta(name, labels);
            && meta.name == name && Strips(meta.extra, labels, "supernetes-extra/")
            && meta.identifier
               == if "supernetes-workload/idenfitier" in labels then labels["supernetes-workload/idenfitier"] else ""
  {
    UnscopedStrips(labels, SCOPE_EXTRA);
    assert SCOPE_EXTRA + "/" == "supernetes-extra/";
    hide Unscoped, Strips;
  }

  /** The nodes sent: the provider's own first, then the names between the commas of the additional nodes label. */
  lemma NodesSent(labels: LabelMap, nodeName: string)
    ensures var nodes := Nodes(labels, nodeName);
            && nodes != [] && nodes[0] == nodeName
            && (forall j | 1 <= j < |nodes| :: ',' !in nodes[j])
            && Join(nodes, ',')
               == if "supernetes-workload/additional-nodes" in labels
                  then nodeName + "," + labels["supernetes-workload/additional-nodes"] else nodeName
  {
    NodelistIsVerbatim(labels, nodeName);
    if LABEL_ADDITIONAL_NODES in labels {
      SplitParts(labels[LABEL_ADDITIONAL_NODES], ',');
    }
    hide Join, Split;
  }

  lemma ConvertedSent(pod: PodView, nodeName: string)
    ensures var sub := Converted(pod, nodeName);
            && sub.containers == pod.containers
            && Strips(sub.options, pod.labels, "supernetes-option/")
            && sub.nodes == Nodes(pod.labels, nodeName)
            && sub.meta == Meta(pod.key.name, pod.labels)
  {
    UnscopedStrips(pod.labels, SCOPE_OPTION);
    assert SCOPE_OPTION + "/" == "supernetes-option/";
    hide Unscoped, Strips, Meta, Nodes;
  }

  /**
   A job is submitted for a Pod if and only if a user created it and it has no identifier yet, once, and then with the
   Pod's containers, its node and the additional ones, the options and extras it is labelled with, and its name.
   */
  lemma SubmittedExactly(nodeName: string, v: View, pod: PodView, answer: Answer, now: int)
    ensures var w := Created(v, nodeName, pod, answer, now);
            && v.calls <= w.calls
            && |w.calls| == |v.calls| + if UsersOwn(pod.labels)
            && "supernetes-workload/idenfitier" !in pod.labels then 1 else 0
    ensures var w := Created(v, nodeName, pod, answer, now);
            |w.calls| > |v.calls| ==>
              && w.calls[|v.calls|].Dispatch?
              && var sub := w.calls[|v.calls|].submission;
                 && sub.containers == pod.containers
                 && sub.nodes != [] && sub.nodes[0] == nodeName
                 && (forall j | 1 <= j < |sub.nodes| :: ',' !in sub.nodes[j])
                 && Join(sub.nodes, ',')
                    == (if "supernetes-workload/additional-nodes" in pod.labels
                        then nodeName + "," + pod.labels["supernetes-workload/additional-nodes"] else nodeName)
                 && Strips(sub.options, pod.labels, "supernetes-option/")
                 && sub.meta.name == pod.key.name && sub.meta.identifier == ""
                 && Strips(sub.meta.extra, pod.labels, "supernetes-extra/")
  {
    var loaded := Loaded(v.pending, pod);
    ConvertedSent(loaded, nodeName);
    NodesSent(pod.labels, nodeName);
    MetaSent(pod.key.name, pod.labels);
    CreatedCalls(v, nodeName, pod, answer, now);
    hide Converted, Strips, Meta, Join, Created, Nodes, Loaded;
  }

  lemma CreatedCalls(v: View, nodeName: string, pod: PodView, answer: Answer, now: int)
    ensures Created(v, nodeName, pod, answer, now).calls == v.calls + CallsFor(Loaded(v.pending, pod), nodeName)
    ensures var l := Loaded(v.pending, pod);
            l.labels == pod.labels && l.containers == pod.containers && l.key == pod.key
    ensures IsTracked(pod.labels) <==> UsersOwn(pod.labels)
  {
    hide Converted, Dispatched;
  }

  /**
   An accepted job's answer goes onto the stored Pod: it reports the identifier and its extras overridden by the
   answer's, while every other label stays; a Pod that is not submitted, or whose job is refused, keeps its labels.
   */
  lemma LabelsAfterCreation(nodeName: string, v: View, pod: PodView, answer: Answer, now: int)
    ensures var w := Created(v, nodeName, pod, answer, now);
            && pod.key in w.pods && w.pods[pod.key].key == pod.key && w.pods[pod.key].containers == pod.containers
            && var after := w.pods[pod.key].labels;
               if UsersOwn(pod.labels) && "supernetes-workload/idenfitier" !in pod.labels && answer.Accepted? then
                 && Meta(pod.key.name, after)
                    == WorkloadMeta(pod.key.name, answer.meta.identifier,
                      Meta("", pod.labels).extra + answer.meta.extra)
                 && forall key | key != "supernetes-workload/idenfitier" && !InScope(key, "supernetes-extra") ::
                      SameAt(after, pod.labels, key)
               else after == pod.labels
  {
    hide Changed, Unscoped, Converted, Meta, Applied, InScope, SameAt;
    StoredLabels(v, nodeName, pod, answer, now);
    if answer.Accepted? {
      MetaAfter(answer.meta, pod.key.name, pod.labels);
      forall key | key != "supernetes-workload/idenfitier" && !InScope(key, "supernetes-extra")
        ensures SameAt(Applied(answer.meta, pod.labels), pod.labels, key)
      {
        OtherLabelsStay(answer.meta, pod.labels, key);
      }
    }
  }

  lemma MetaAfter(meta: WorkloadMeta, name: string, labels: LabelMap)
    ensures Meta(name, Applied(meta, labels))
      == WorkloadMeta(name, meta.identifier, Meta("", labels).extra + meta.extra)
  {
    MetaRoundTrip(meta, name, labels);
    hide Unscoped, Applied;
  }

  lemma StoredLabels(v: View, nodeName: string, pod: PodView, answer: Answer, now: int)
    ensures var w := Created(v, nodeName, pod, answer, now);
            && pod.key in w.pods && w.pods[pod.key].key == pod.key && w.pods[pod.key].containers == pod.containers
            && w.pods[pod.key].labels
               == if UsersOwn(pod.labels) && "supernetes-workload/idenfitier" !in pod.labels && answer.Accepted?
                  then Applied(answer.meta, pod.labels) else pod.labels
  {
    hide Changed, Applied, Converted;
  }

  /**
   Deleting a Pod the provider has asks the agent to delete its job if and only if a user created the Pod, naming it by
   the identifier it bears; deleting one it does not have does nothing.
   */
  lemma DeletionCancels(nodeName: string, v: View, pod: PodView, now: int)
    ensures var w := Apply(nodeName, v, Delete(pod, now));
            if pod.key !in v.pods then w == v
            else if !UsersOwn(pod.labels) then w.calls == v.calls
            else
              && |w.calls| == |v.calls| + 1 && v.calls <= w.calls && w.calls[|v.calls|].Cancel?
              && var meta := w.calls[|v.calls|].meta;
                 && meta.name == pod.key.name && Strips(meta.extra, pod.labels, "supernetes-extra/")
                 && meta.identifier == (if "supernetes-workload/idenfitier" in pod.labels
                                        then pod.labels["supernetes-workload/idenfitier"] else "")
  {
    MetaSent(pod.key.name, pod.labels);
    hide Meta, Strips, Changed;
  }

  /** Neither updates nor reports say anything to the agent. */
  lemma OnlyCreationAndDeletionCall(nodeName: string, v: View, op: Op)
    requires op.Update? || op.Report?
    ensures Apply(nodeName, v, op).calls == v.calls
  {
    hide Changed;
  }

  /**
   Virtual Kubelet is told once of every creation, every update and every deletion of a Pod the provider has, with the
   status and the message that operation leaves; and a deleted Pod is told as succeeded.
   */
  lemma ToldOnce(nodeName: string, v: View, op: Op)
    requires !op.Report? && (op.Delete? ==> op.pod.key in v.pods)
    ensures var w := Apply(nodeName, v, op);
            && |w.notes| == |v.notes| + 1 && v.notes <= w.notes && w.notes[|v.notes|].key == op.pod.key
            && var status := w.notes[|v.notes|].status;
               && status.message == (if op.Create? then "Supernetes workload was created"
                                     else if op.Update? then "Supernetes workload was updated"
                                     else "Supernetes workload was deleted")
               && (op.Delete? ==> status.phase == Succeeded)
               && (!op.Delete? ==> op.pod.key in w.pods && w.pods[op.pod.key].status == status)
               && (op.Update? ==> status.phase == op.pod.status.phase && w.pods[op.pod.key].labels == op.pod.labels)
  {
    hide Changed, Converted, Applied, IsTracked, Identified, Meta;
  }
}
