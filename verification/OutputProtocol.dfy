/** Rendering of model output (`src/output_protocol.rs`).

What the Markdown parser finds is given as the node list; positions are offsets into
the source text, and the text is taken byte by byte.
*/
module OutputProtocol {
  import opened Text
  import opened EntityDirectory

  datatype Capability = Disabled | AsText | Native

  datatype NodeKind =
    | EntityMention(reference: string, entityKind: EntityKind, caption: string)
    | BroadcastAll(caption: string)
    | Resource(path: string, caption: string, image: bool)
    | Html(html: string)
    | Table(markdown: string, mode: Capability)
    | Chart(markdown: string, mode: Capability)

  datatype Node = Node(start: nat, end: nat, kind: NodeKind)

  datatype Document = Document(source: string, nodes: seq<Node>)

  // ---------------------------------------------------------------------------
  // Splicing
  // ---------------------------------------------------------------------------

  // What to put in a node's place, if anything.
  type Replacement = Node -> Option<string>

  function ReplaceRange(text: string, start: nat, end: nat, replacement: string): string
    requires start <= end <= |text|
  {
    text[..start] + replacement + text[end..]
  }

  // From the last node to the first, each replacement in place. (None: a range that
  // the text does not have any more, on which the source panics.)
  function InPlace(source: string, nodes: seq<Node>, replace: Replacement): Option<string> {
    if nodes == [] then Some(source)
    else
      match InPlace(source, nodes[1..], replace)
      case None => None
      case Some(rendered) =>
        match replace(nodes[0])
        case None => Some(rendered)
        case Some(text) =>
          if nodes[0].start <= nodes[0].end <= |rendered|
          then Some(ReplaceRange(rendered, nodes[0].start, nodes[0].end, text)) else None
  }

  // Nodes are in order of their starts, as the parser leaves them. Only those that are
  // replaced have to be apart from each other.
  ghost predicate CanSplice(source: string, nodes: seq<Node>, replace: Replacement) {
    && (forall i :: 0 <= i < |nodes| ==> nodes[i].start <= nodes[i].end <= |source|)
    && (forall i, j :: 0 <= i < j < |nodes| && replace(nodes[i]).Some? && replace(nodes[j]).Some? ==>
          nodes[i].end <= nodes[j].start)
  }

  ghost predicate ClearUpTo(nodes: seq<Node>, replace: Replacement, at: nat) {
    forall i :: 0 <= i < |nodes| && replace(nodes[i]).Some? ==> at <= nodes[i].start
  }

  // One pass forward: the gaps from `at` on, joined with the replacements.
  ghost function Forward(source: string, nodes: seq<Node>, replace: Replacement, at: nat): string
    requires CanSplice(source, nodes, replace) && ClearUpTo(nodes, replace, at) && at <= |source|
  {
    if nodes == [] then source[at..]
    else
      match replace(nodes[0])
      case None => Forward(source, nodes[1..], replace, at)
      case Some(text) => source[at..nodes[0].start] + text + Forward(source, nodes[1..], replace, nodes[0].end)
  }

  // Before the first replaced node the pass only copies.
  lemma {:induction false} ForwardCopies(source: string, nodes: seq<Node>, replace: Replacement, at: nat)
    requires CanSplice(source, nodes, replace) && ClearUpTo(nodes, replace, at) && at <= |source|
    ensures Forward(source, nodes, replace, 0) == source[..at] + Forward(source, nodes, replace, at)
  {
    if nodes != [] {
      if replace(nodes[0]).None? {
        ForwardCopies(source, nodes[1..], replace, at);
      } else {
        assert source[0..nodes[0].start] == source[..at] + source[at..nodes[0].start];
      }
    } else {
      assert source[0..] == source[..at] + source[at..];
    }
  }

  // Where the replaced nodes are apart, replacing in place is the pass forward.
  lemma {:induction false} InPlaceIsForward(source: string, nodes: seq<Node>, replace: Replacement)
    requires CanSplice(source, nodes, replace)
    ensures InPlace(source, nodes, replace) == Some(Forward(source, nodes, replace, 0))
  {
    if nodes != [] {
      var node, rest := nodes[0], nodes[1..];
      InPlaceIsForward(source, rest, replace);
      if replace(node).Some? {
        ForwardCopies(source, rest, replace, node.end);
        var rendered, tail := Forward(source, rest, replace, 0), Forward(source, rest, replace, node.end);
        assert rendered[..node.start] == source[0..node.start];
        assert rendered[node.end..] == tail;
      }
    }
  }

  method Splice(source: string, nodes: seq<Node>, replace: Replacement) returns (rendered: Option<string>)
    ensures rendered == InPlace(source, nodes, replace)
  {
    var text := source;
    var i: nat := |nodes|;
    while i > 0
      invariant i <= |nodes|
      invariant InPlace(source, nodes[i..], replace) == Some(text)
    {
      i := i - 1;
      assert nodes[i..][1..] == nodes[i + 1..];
      var replacement := replace(nodes[i]);
      if replacement.Some? {
        if !(nodes[i].start <= nodes[i].end <= |text|) {
          NoneStays(source, nodes, replace, i);
          return None;
        }
        text := ReplaceRange(text, nodes[i].start, nodes[i].end, replacement.value);
      }
    }
    assert nodes[0..] == nodes;
    return Some(text);
  }

  lemma {:induction false} NoneStays(source: string, nodes: seq<Node>, replace: Replacement, i: nat)
    requires i <= |nodes| && InPlace(source, nodes[i..], replace) == None
    ensures InPlace(source, nodes, replace) == None
  {
    if i == 0 {
      assert nodes[0..] == nodes;
    } else {
      assert nodes[i - 1..][1..] == nodes[i..];
      NoneStays(source, nodes, replace, i - 1);
    }
  }

  function MentionReplacement(entity: (string, EntityKind, string) -> Option<string>, all: string -> Option<string>):
    Replacement
  {
    (node: Node) =>
      match node.kind
      case EntityMention(reference, kind, caption) => entity(reference, kind, caption)
      case BroadcastAll(caption) => all(caption)
      case Table(markdown, AsText) => Some(markdown)
      case Chart(markdown, AsText) => Some(markdown)
      case _ => None
  }

  function ResourceReplacement(resource: (string, bool, string) -> Option<string>): Replacement {
    (node: Node) => if node.kind.Resource? then resource(node.kind.path, node.kind.image, node.kind.caption) else None
  }

  // What a node must be replaced with: mentions and broadcasts as the callbacks say,
  // tables and charts for a text-only channel by their Markdown, other nodes not at all.
  ghost predicate IsMentionText(node: Node, entity: (string, EntityKind, string) -> Option<string>,
                                all: string -> Option<string>, text: Option<string>)
  {
    text ==
      if node.kind.EntityMention? then entity(node.kind.reference, node.kind.entityKind, node.kind.caption)
      else if node.kind.BroadcastAll? then all(node.kind.caption)
      else if (node.kind.Table? || node.kind.Chart?) && node.kind.mode == AsText then Some(node.kind.markdown)
      else None
  }

  // Only resources are replaced, as the callback says.
  ghost predicate IsResourceText(node: Node, resource: (string, bool, string) -> Option<string>, text: Option<string>) {
    if node.kind.Resource? then text == resource(node.kind.path, node.kind.image, node.kind.caption) else text == None
  }

  method RenderMentions(document: Document, entity: (string, EntityKind, string) -> Option<string>,
                        all: string -> Option<string>)
    returns (rendered: Option<string>)
    ensures forall node :: IsMentionText(node, entity, all, MentionReplacement(entity, all)(node))
    ensures rendered == InPlace(document.source, document.nodes, MentionReplacement(entity, all))
    ensures CanSplice(document.source, document.nodes, MentionReplacement(entity, all)) ==>
      rendered == Some(Forward(document.source, document.nodes, MentionReplacement(entity, all), 0))
  {
    ghost var replace := MentionReplacement(entity, all);
    if CanSplice(document.source, document.nodes, replace) {
      InPlaceIsForward(document.source, document.nodes, replace);
    }
    rendered := Splice(document.source, document.nodes, MentionReplacement(entity, all));
  }

  method RenderResources(document: Document, resource: (string, bool, string) -> Option<string>)
    returns (rendered: Option<string>)
    ensures forall node :: IsResourceText(node, resource, ResourceReplacement(resource)(node))
    ensures rendered == InPlace(document.source, document.nodes, ResourceReplacement(resource))
    ensures CanSplice(document.source, document.nodes, ResourceReplacement(resource)) ==>
      rendered == Some(Forward(document.source, document.nodes, ResourceReplacement(resource), 0))
  {
    ghost var replace := ResourceReplacement(resource);
    if CanSplice(document.source, document.nodes, replace) {
      InPlaceIsForward(document.source, document.nodes, replace);
    }
    rendered := Splice(document.source, document.nodes, ResourceReplacement(resource));
  }

  // Nothing changes when every callback declines.
  lemma {:induction false} DecliningIsIdentity(source: string, nodes: seq<Node>, replace: Replacement)
    requires forall i :: 0 <= i < |nodes| ==> replace(nodes[i]) == None && nodes[i].start <= nodes[i].end <= |source|
    ensures Forward(source, nodes, replace, 0) == source
  {
    if nodes != [] {
      DecliningIsIdentity(source, nodes[1..], replace);
    }
  }

  // Replacing every node by the text it stands on changes nothing either.
  lemma {:induction false} CopyingIsIdentity(source: string, nodes: seq<Node>, replace: Replacement, at: nat)
    requires CanSplice(source, nodes, replace) && ClearUpTo(nodes, replace, at) && at <= |source|
    requires forall i :: 0 <= i < |nodes| ==>
      nodes[i].start <= nodes[i].end <= |source| && replace(nodes[i]) in {None, Some(source[nodes[i].start..nodes[i].end])}
    ensures Forward(source, nodes, replace, at) == source[at..]
  {
    if nodes != [] {
      if replace(nodes[0]).None? {
        CopyingIsIdentity(source, nodes[1..], replace, at);
      } else {
        CopyingIsIdentity(source, nodes[1..], replace, nodes[0].end);
        assert source[at..nodes[0].start] + source[nodes[0].start..nodes[0].end] + source[nodes[0].end..] == source[at..];
      }
    }
  }

  // What the condition is for: a replaced node inside another (an image in a link),
  // among any nodes after them. The outer one is spliced at an offset that the inner
  // one may have moved: past the end of the text if what follows is too short, and
  // right exactly if the inner replacement is as long as what it replaced.
  lemma NestedSplice(source: string, outer: Node, inner: Node, rest: seq<Node>, replace: Replacement)
    requires replace(outer).Some? && replace(inner).Some?
    requires outer.start <= inner.start <= inner.end <= outer.end <= |source|
    requires CanSplice(source, [outer] + rest, replace)
    ensures
      var tail := AfterOuter(source, outer, rest, replace);
      && (InPlace(source, [outer, inner] + rest, replace) == None
          <==> |replace(inner).value| + |tail| < inner.end - inner.start)
      && (InPlace(source, [outer, inner] + rest, replace) == Some(source[..outer.start] + replace(outer).value + tail)
          <==> |replace(inner).value| == inner.end - inner.start)
    ensures InPlace(source, [outer] + rest, replace)
         == Some(source[..outer.start] + replace(outer).value + AfterOuter(source, outer, rest, replace))
  {
    var tail := AfterOuter(source, outer, rest, replace);
    var outerText, innerText := replace(outer).value, replace(inner).value;
    var rendered := source[..outer.end] + tail;
    RestInPlace(source, outer, rest, replace);
    assert ([outer, inner] + rest)[1..] == [inner] + rest && ([inner] + rest)[1..] == rest;
    assert ([outer] + rest)[1..] == rest;
    var first := ReplaceRange(rendered, inner.start, inner.end, innerText);
    assert InPlace(source, [inner] + rest, replace) == Some(first);
    assert rendered[..outer.start] == source[..outer.start] && rendered[outer.end..] == tail;
    if |innerText| == inner.end - inner.start {
      assert first[outer.end..] == tail;
      assert first[..outer.start] == source[..outer.start];
    } else if outer.end <= |first| {
      var wrong := ReplaceRange(first, outer.start, outer.end, outerText);
      assert |wrong| != |source[..outer.start] + outerText + tail|;
      assert InPlace(source, [outer, inner] + rest, replace) == Some(wrong);
    }
  }

  // The text after a node, as a pass forward renders it.
  ghost function AfterOuter(source: string, outer: Node, rest: seq<Node>, replace: Replacement): string
    requires replace(outer).Some? && CanSplice(source, [outer] + rest, replace)
  {
    RestIsApart(source, outer, rest, replace);
    Forward(source, rest, replace, outer.end)
  }

  lemma RestIsApart(source: string, outer: Node, rest: seq<Node>, replace: Replacement)
    requires replace(outer).Some? && CanSplice(source, [outer] + rest, replace)
    ensures CanSplice(source, rest, replace) && ClearUpTo(rest, replace, outer.end) && outer.end <= |source|
  {
    var nodes := [outer] + rest;
    assert forall i :: 0 <= i < |rest| ==> rest[i] == nodes[i + 1];
    assert nodes[0] == outer;
  }

  lemma RestInPlace(source: string, outer: Node, rest: seq<Node>, replace: Replacement)
    requires replace(outer).Some? && CanSplice(source, [outer] + rest, replace)
    ensures outer.end <= |source|
    ensures InPlace(source, rest, replace) == Some(source[..outer.end] + AfterOuter(source, outer, rest, replace))
  {
    RestIsApart(source, outer, rest, replace);
    InPlaceIsForward(source, rest, replace);
    ForwardCopies(source, rest, replace, outer.end);
  }

  // If both start at one place, the inner one may come first in the list; it is then
  // spliced into the outer one's replacement.
  lemma NestedAtOneStart(source: string, outer: Node, inner: Node, rest: seq<Node>, replace: Replacement)
    requires replace(outer).Some? && replace(inner).Some?
    requires outer.start == inner.start <= inner.end <= outer.end <= |source|
    requires CanSplice(source, [outer] + rest, replace)
    ensures
      var after := replace(outer).value + AfterOuter(source, outer, rest, replace);
      InPlace(source, [inner, outer] + rest, replace) == Some(source[..outer.start] + after)
      <==> inner.end - inner.start <= |after| && after[..inner.end - inner.start] == replace(inner).value
  {
    var tail := AfterOuter(source, outer, rest, replace);
    var after, n, innerText := replace(outer).value + tail, inner.end - inner.start, replace(inner).value;
    RestInPlace(source, outer, rest, replace);
    assert ([inner, outer] + rest)[1..] == [outer] + rest && ([outer] + rest)[1..] == rest;
    var rendered := source[..outer.end] + tail;
    assert rendered[..outer.start] == source[..outer.start] && rendered[outer.end..] == tail;
    var first := source[..outer.start] + after;
    assert ReplaceRange(rendered, outer.start, outer.end, replace(outer).value) == first;
    if inner.end <= |first| {
      assert first[..inner.start] == source[..outer.start] && first[inner.end..] == after[n..];
      var result := source[..outer.start] + innerText + after[n..];
      assert ReplaceRange(first, inner.start, inner.end, innerText) == result;
      assert after == after[..n] + after[n..];
      if result == first {
        assert |innerText| == n;
        assert result[outer.start..outer.start + n] == innerText;
        assert first[outer.start..outer.start + n] == after[..n];
      }
    }
  }

  // ---------------------------------------------------------------------------
  // Agents mentioned
  // ---------------------------------------------------------------------------

  predicate MentionsAgent(node: Node, reference: string) {
    node.kind.EntityMention? && node.kind.entityKind.Agent? && node.kind.reference == reference
  }

  // The first node that mentions an agent, or the number of nodes.
  function FirstMention(nodes: seq<Node>, reference: string): (at: nat)
    ensures at <= |nodes|
  {
    if nodes == [] then 0
    else
      var front := nodes[..|nodes| - 1];
      if FirstMention(front, reference) < |front| then FirstMention(front, reference)
      else if MentionsAgent(nodes[|nodes| - 1], reference) then |nodes| - 1
      else |nodes|
  }

  lemma FirstMentionGrows(nodes: seq<Node>, i: nat, reference: string)
    requires i < |nodes|
    ensures
      FirstMention(nodes[..i + 1], reference)
      == if FirstMention(nodes[..i], reference) < i then FirstMention(nodes[..i], reference)
         else if MentionsAgent(nodes[i], reference) then i
         else i + 1
  {
    assert nodes[..i + 1][..i] == nodes[..i];
  }

  lemma {:induction false} FirstMentionFinds(nodes: seq<Node>, reference: string)
    ensures FirstMention(nodes, reference) < |nodes| <==>
      exists i :: 0 <= i < |nodes| && nodes[i].kind.EntityMention?
               && nodes[i].kind.entityKind == Agent && nodes[i].kind.reference == reference
  {
    if nodes != [] {
      var front, last := nodes[..|nodes| - 1], nodes[|nodes| - 1];
      FirstMentionFinds(front, reference);
      if FirstMention(front, reference) < |front| {
        var i :| 0 <= i < |front| && front[i].kind.EntityMention?
              && front[i].kind.entityKind == Agent && front[i].kind.reference == reference;
        assert nodes[i] == front[i];
      } else if MentionsAgent(last, reference) {
        assert nodes[|front|] == last;
      }
    }
  }

  // Every agent mentioned, once, in the order of first mention.
  method AgentMentions(nodes: seq<Node>) returns (result: seq<string>)
    ensures forall r :: r in result <==>
      exists i :: 0 <= i < |nodes| && nodes[i].kind.EntityMention?
               && nodes[i].kind.entityKind == Agent && nodes[i].kind.reference == r
    ensures forall r :: r in result <==> FirstMention(nodes, r) < |nodes|
    ensures forall j, k :: 0 <= j < k < |result| ==> FirstMention(nodes, result[j]) < FirstMention(nodes, result[k])
  {
    result := [];
    hide FirstMention;
    for i := 0 to |nodes|
      invariant forall r :: r in result <==> FirstMention(nodes[..i], r) < i
      invariant forall j, k :: 0 <= j < k < |result| ==>
        FirstMention(nodes[..i], result[j]) < FirstMention(nodes[..i], result[k])
    {
      forall r ensures
        FirstMention(nodes[..i + 1], r)
        == if FirstMention(nodes[..i], r) < i then FirstMention(nodes[..i], r)
           else if MentionsAgent(nodes[i], r) then i
           else i + 1
      {
        FirstMentionGrows(nodes, i, r);
      }
      var kind := nodes[i].kind;
      if kind.EntityMention? && kind.entityKind.Agent? && kind.reference !in result {
        result := result + [kind.reference];
      }
    }
    assert nodes[..|nodes|] == nodes;
    forall r ensures r in result <==>
      exists i :: 0 <= i < |nodes| && nodes[i].kind.EntityMention?
               && nodes[i].kind.entityKind == Agent && nodes[i].kind.reference == r
    {
      FirstMentionFinds(nodes, r);
    }
  }

  // ---------------------------------------------------------------------------
  // Escapes
  // ---------------------------------------------------------------------------

  function BackslashesBefore(text: string, index: nat): nat
    requires index <= |text|
  {
    if index > 0 && text[index - 1] == '\\' then BackslashesBefore(text, index - 1) + 1 else 0
  }

  predicate IsEscaped(text: string, index: nat)
    requires index <= |text|
  {
    BackslashesBefore(text, index) % 2 == 1
  }

  // Reading forward, a backslash escapes what follows unless it is itself escaped.
  function EscapedAfter(text: string): bool {
    text != "" && text[|text| - 1] == '\\' && !EscapedAfter(text[..|text| - 1])
  }

  // Counting backslashes backward finds what reading forward finds.
  lemma {:induction false} EscapesReadForward(text: string, index: nat)
    requires index <= |text|
    ensures IsEscaped(text, index) <==> EscapedAfter(text[..index])
  {
    if index > 0 {
      EscapesReadForward(text, index - 1);
      assert text[..index][..index - 1] == text[..index - 1];
    }
  }
}
