/**
 * A source-document button (components/SourceDocumentItem.tsx): its shortened topic,
 * its "n source(s)" count, and whether its modal is open.
 */
module SourceItem {
  import opened Text

  /** What the button reads of a source document: its topic and how many sources it has. */
  datatype SourceDocument = SourceDocument(topic: string, sourceCount: nat)

  /** Topics longer than 30 characters show their first 27 and an ellipsis. */
  function DisplayTitle(topic: string): (r: string)
    ensures |topic| <= 30 ==> r == topic
    ensures |topic| > 30 ==> r == topic[..27] + "..."
  {
    Ellipsize(topic, 30, 27)
  }

  function Min(a: nat, b: nat): nat {
    if a < b then a else b
  }

  /** The title is never longer than 30 and always starts like the topic. */
  lemma TitleBounds(topic: string)
    ensures |DisplayTitle(topic)| == Min(|topic|, 30)
    ensures DisplayTitle(topic)[..Min(|topic|, 27)] == topic[..Min(|topic|, 27)]
  {
  }

  /** The noun after the count. */
  function SourceNoun(count: nat): (noun: string)
    ensures noun == "source" <==> count == 1
    ensures noun == "sources" <==> count != 1
  {
    "source" + (if count != 1 then "s" else "")
  }

  /** The count line under the title. */
  function CountLabel(doc: SourceDocument): (text: string)
    ensures StartsWith(text, NatToString(doc.sourceCount) + " source")
    ensures text[|text| - 1] == 's' <==> doc.sourceCount != 1
  {
    NatToString(doc.sourceCount) + " " + SourceNoun(doc.sourceCount)
  }

  /** What can happen to the button: it is clicked, or its modal is closed. */
  datatype Event = Click | Close

  /** `isModalOpen` after some events, starting from `useState(false)`. */
  function ModalOpen(events: seq<Event>): bool
    decreases |events|
  {
    if events == [] then false
    else match events[|events| - 1]
      case Click => true
      case Close => false
  }

  /** The modal is open exactly when there was a click and no close after the last one. */
  lemma {:induction false} OpenIffClickedSinceClose(events: seq<Event>)
    ensures ModalOpen(events) <==>
      exists i | 0 <= i < |events| :: events[i] == Click && forall j | i < j < |events| :: events[j] != Close
    decreases |events|
  {
    var n := |events|;
    if n > 0 {
      var pre := events[..n - 1];
      OpenIffClickedSinceClose(pre);
      if events[n - 1] == Click {
        var i := n - 1;
        assert events[i] == Click;
      } else {
        forall i | 0 <= i < n && events[i] == Click
          ensures exists j | i < j < n :: events[j] == Close
        {
          assert events[n - 1] == Close;
        }
      }
    }
  }
}
