/** The pure helpers of the assistant client: message construction and citation-placeholder stripping. */
module AssistantUtils {
  import opened PyStr

  /** A citation annotation on a text reply; only its placeholder text is used. */
  datatype Annotation = Annotation(text: string)

  /** One entry of the `messages` list sent when a thread is created. */
  datatype ChatMessage = ChatMessage(role: string, content: string)

  /** `to_messages(text, role)`: the single user message a new thread starts with. */
  function ToMessages(text: string, role: string): (r: seq<ChatMessage>)
    ensures |r| == 1
    ensures r[0].role == role && r[0].content == text
  {
    [ChatMessage(role, text)]
  }

  /** The text after deleting each annotation's placeholder in turn, first annotation first. */
  function StripAnnotations(response: string, annotations: seq<Annotation>): (r: string)
    ensures |r| <= |response|
    ensures (forall k :: 0 <= k < |annotations| ==> annotations[k].text == "") ==> r == response
    decreases |annotations|
  {
    if annotations == [] then response
    else StripAnnotations(RemoveAll(response, annotations[0].text), annotations[1..])
  }

  /** `handle_annotations`: one `str.replace(placeholder, "")` per annotation, in list order. */
  method HandleAnnotations(response: string, annotations: seq<Annotation>) returns (r: string)
    ensures r == StripAnnotations(response, annotations)
    ensures annotations == [] ==> r == response
  {
    r := response;
    for i := 0 to |annotations|
      invariant StripAnnotations(r, annotations[i..]) == StripAnnotations(response, annotations)
    {
      assert annotations[i..][1..] == annotations[i + 1..];
      r := RemoveAll(r, annotations[i].text);
    }
    assert annotations[|annotations|..] == [];
  }

  /** Stripping only deletes characters: the result is a subsequence of the reply, hence no longer. */
  lemma {:induction false} StripIsSubsequence(response: string, annotations: seq<Annotation>)
    ensures IsSubsequence(StripAnnotations(response, annotations), response)
    ensures |StripAnnotations(response, annotations)| <= |response|
    decreases |annotations|
  {
    if annotations == [] {
      SubsequenceReflexive(response);
    } else {
      var once := RemoveAll(response, annotations[0].text);
      StripIsSubsequence(once, annotations[1..]);
      RemoveAllSubsequence(response, annotations[0].text);
      SubsequenceTransitive(StripAnnotations(once, annotations[1..]), once, response);
    }
  }

  /** Placeholders none of which occur in the reply leave it unchanged. */
  lemma {:induction false} StripAbsent(response: string, annotations: seq<Annotation>)
    requires forall k :: 0 <= k < |annotations| ==> !Occurs(response, annotations[k].text)
    ensures StripAnnotations(response, annotations) == response
    decreases |annotations|
  {
    if annotations != [] {
      RemoveAbsent(response, annotations[0].text);
      StripAbsent(response, annotations[1..]);
    }
  }

  /**
   * Deletion can create a new occurrence: "aabb" with "ab" removed is "ab",
   * which still contains the placeholder.
   */
  lemma PlaceholderCanReappear()
    ensures StripAnnotations("aabb", [Annotation("ab")]) == "ab"
    ensures Occurs(StripAnnotations("aabb", [Annotation("ab")]), "ab")
  {
    assert RemoveAll("abb", "ab") == RemoveAll("b", "ab");
    assert RemoveAll("aabb", "ab") == "a" + RemoveAll("abb", "ab");
    assert OccursAt("ab", "ab", 0);
  }
}
