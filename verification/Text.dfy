/** Text and option helpers shared by the other modules. */
module Text {

  datatype Option<+T> = None | Some(value: T)

  function Join(texts: seq<string>): string {
    if texts == [] then "" else Join(texts[..|texts| - 1]) + texts[|texts| - 1]
  }

  lemma JoinSnoc(texts: seq<string>, text: string)
    ensures Join(texts + [text]) == Join(texts) + text
  {
    assert (texts + [text])[..|texts|] == texts;
  }

  // The elements that have an image are those at the places `at`.
  ghost predicate SelectedAt<T(!new), U(!new)>(whole: seq<T>, part: seq<U>, image: T -> Option<U>, at: seq<nat>) {
    && |at| == |part|
    && (forall j :: 0 <= j < |at| ==> at[j] < |whole| && image(whole[at[j]]) == Some(part[j]))
    && (forall j, k :: 0 <= j < k < |at| ==> at[j] < at[k])
    && (forall i :: 0 <= i < |whole| && image(whole[i]).Some? ==> i in at)
  }

  // The image of each element that has one, as often as it is there and in its place,
  // and nothing else.
  ghost predicate Selected<T(!new), U(!new)>(whole: seq<T>, part: seq<U>, image: T -> Option<U>) {
    exists at: seq<nat> :: SelectedAt(whole, part, image, at)
  }

  lemma SelectedNothing<T(!new), U(!new)>(image: T -> Option<U>)
    ensures Selected([], [], image)
  {
    assert SelectedAt([], [], image, []);
  }

  lemma SelectedSnoc<T(!new), U(!new)>(whole: seq<T>, part: seq<U>, image: T -> Option<U>)
    requires whole != [] && Selected(whole[..|whole| - 1], part, image)
    ensures Selected(whole, match image(whole[|whole| - 1]) case Some(last) => part + [last] case None => part, image)
  {
    var front, last := whole[..|whole| - 1], whole[|whole| - 1];
    assert whole == front + [last];
    var at: seq<nat> :| SelectedAt(front, part, image, at);
    if image(last).Some? {
      KeepLast(front, part, image, last, at);
    } else {
      SkipLast(front, part, image, last, at);
    }
  }

  lemma KeepLast<T(!new), U(!new)>(whole: seq<T>, part: seq<U>, image: T -> Option<U>, last: T, at: seq<nat>)
    requires SelectedAt(whole, part, image, at) && image(last).Some?
    ensures SelectedAt(whole + [last], part + [image(last).value], image, at + [|whole|])
  {
    var whole', part', at' := whole + [last], part + [image(last).value], at + [|whole|];
    forall i | 0 <= i < |whole'| && image(whole'[i]).Some? ensures i in at' {
      if i < |whole| {
        assert whole'[i] == whole[i];
        var j :| 0 <= j < |at| && at[j] == i;
        assert at'[j] == i;
      } else {
        assert at'[|at|] == i;
      }
    }
    forall j | 0 <= j < |at'| ensures at'[j] < |whole'| && image(whole'[at'[j]]) == Some(part'[j]) {
      if j < |at| {
        assert at'[j] == at[j] && whole'[at[j]] == whole[at[j]] && part'[j] == part[j];
      }
    }
  }

  lemma SkipLast<T(!new), U(!new)>(whole: seq<T>, part: seq<U>, image: T -> Option<U>, last: T, at: seq<nat>)
    requires SelectedAt(whole, part, image, at) && image(last).None?
    ensures SelectedAt(whole + [last], part, image, at)
  {
    forall i | 0 <= i < |whole + [last]| && image((whole + [last])[i]).Some? ensures i in at {
      assert (whole + [last])[i] == whole[i];
    }
  }

  // Unicode White_Space.
  predicate IsWhitespace(ch: char) {
    || '\U{0009}' <= ch <= '\U{000d}'
    || ch in {' ', '\U{0085}', '\U{00a0}', '\U{1680}', '\U{2028}', '\U{2029}', '\U{202f}', '\U{205f}', '\U{3000}'}
    || '\U{2000}' <= ch <= '\U{200a}'
  }

  function TrimStart(text: string): string {
    if text != "" && IsWhitespace(text[0]) then TrimStart(text[1..]) else text
  }

  function TrimEnd(text: string): string {
    if text != "" && IsWhitespace(text[|text| - 1]) then TrimEnd(text[..|text| - 1]) else text
  }

  function Trim(text: string): string {
    TrimEnd(TrimStart(text))
  }
}
