/**
 * The per-session store behind the edit and download widgets (app.py:166-175, 182-194): each
 * battlecard's text is kept under `<label>_text`, the editor overwrites that entry, the single
 * download exports that entry, and the download of all battlecards exports the dict itself.
 */
module Session {
  import opened Wrappers
  import opened Text
  import opened OrderedDict
  import opened Export

  /** The session key a battlecard's text is kept under. */
  function TextKey(key: string): string
  {
    key + "_text"
  }

  /** The session keys of `cards`, in order. */
  function TextKeys(cards: seq<(string, Option<string>)>): (ks: seq<string>)
    ensures |ks| == |cards| && forall i :: 0 <= i < |cards| ==> ks[i] == TextKey(cards[i].0)
  {
    seq(|cards|, i requires 0 <= i < |cards| => TextKey(cards[i].0))
  }

  /** The session state after each card's text has been stored, in the dict's order. */
  function Remembered(state: map<string, Option<string>>, cards: seq<(string, Option<string>)>): map<string, Option<string>>
  {
    if cards == [] then state
    else
      var last := cards[|cards| - 1];
      Remembered(state, cards[..|cards| - 1])[TextKey(last.0) := last.1]
  }

  /** What the single download comes to: the export of one card, or the `KeyError` of a missing entry. */
  datatype Download = Ready(written: Written) | MissingKey(missing: string)

  /** The single download of `key`: the one-card export of the stored entry (app.py:192). */
  function SingleDownload(state: map<string, Option<string>>, key: string): Download
  {
    if TextKey(key) in state then Ready(Serialize([(key, state[TextKey(key)])])) else MissingKey(TextKey(key))
  }

  /** `st.session_state`, restricted to the entries the battlecard widgets use. */
  class Store {
    var state: map<string, Option<string>>

    constructor ()
      ensures state == map[]
    {
      state := map[];
    }

    /** Stores each generated battlecard's text under its session key (app.py:166-169). */
    method Remember(cards: seq<(string, Option<string>)>)
      modifies this
      ensures state == Remembered(old(state), cards)
    {
      var i := 0;
      while i < |cards|
        invariant 0 <= i <= |cards|
        invariant state == Remembered(old(state), cards[..i])
      {
        assert cards[..i + 1][..i] == cards[..i];
        state := state[TextKey(cards[i].0) := cards[i].1];
        i := i + 1;
      }
      assert cards[..i] == cards;
    }

    /** The editor's text replaces the stored text of the selected battlecard (app.py:174-175). */
    method Edit(key: string, text: string)
      modifies this
      ensures state == old(state)[TextKey(key) := Some(text)]
    {
      state := state[TextKey(key) := Some(text)];
    }

    /** The "Single" download: exports the stored text of the selected battlecard (app.py:189-194). */
    method DownloadSingle(key: string) returns (d: Download)
      ensures d == SingleDownload(state, key)
    {
      if TextKey(key) in state {
        var w := SaveBattlecards([(key, state[TextKey(key)])]);
        d := Ready(w);
      } else {
        d := MissingKey(TextKey(key));
      }
    }
  }

  /** Different battlecards are kept under different session keys. */
  lemma TextKeyInjective(a: string, b: string)
    ensures TextKey(a) == TextKey(b) <==> a == b
  {
    if TextKey(a) == TextKey(b) {
      assert a == TextKey(a)[..|TextKey(a)| - 5];
    }
  }

  /**
   * After the cards of a dict are stored, each card's session entry holds its text, and every other
   * entry of the session is as it was.
   */
  lemma {:induction false} RememberedFacts(state: map<string, Option<string>>, cards: seq<(string, Option<string>)>)
    requires Distinct(Keys(cards))
    ensures forall i :: 0 <= i < |cards| ==>
      TextKey(cards[i].0) in Remembered(state, cards) && Remembered(state, cards)[TextKey(cards[i].0)] == cards[i].1
    ensures forall x :: x !in TextKeys(cards) ==>
      (x in Remembered(state, cards) <==> x in state) && (x in state ==> Remembered(state, cards)[x] == state[x])
  {
    if cards != [] {
      var init, last := cards[..|cards| - 1], cards[|cards| - 1];
      assert Distinct(Keys(init)) by {
        forall i, j | 0 <= i < j < |init| ensures init[i].0 != init[j].0 {
          assert init[i] == cards[i] && init[j] == cards[j];
        }
      }
      RememberedFacts(state, init);
      forall i | 0 <= i < |init|
        ensures init[i] == cards[i] && TextKey(init[i].0) != TextKey(last.0)
      {
        assert Keys(cards)[i] != Keys(cards)[|cards| - 1];
        TextKeyInjective(init[i].0, last.0);
      }
      forall x | x !in TextKeys(cards) ensures x !in TextKeys(init) && x != TextKey(last.0) {
        assert TextKeys(cards)[|cards| - 1] == TextKey(last.0);
        forall i | 0 <= i < |init| ensures TextKeys(init)[i] != x {
          assert TextKeys(cards)[i] == TextKeys(init)[i];
        }
      }
    }
  }

  lemma SerializeSingle(key: string, content: Option<string>)
    ensures Serialize([(key, content)]) ==
      if content.None? then TypeError(key, Header(key)) else Complete(Block(key, content.value))
  {
    assert [(key, content)][..0] == [];
  }

  /**
   * Before any edit, the single download of a shown battlecard exports exactly that card: its block
   * when it holds text, and the TypeError when its generation failed. A label that was never shown
   * and has no session entry raises KeyError.
   */
  lemma SingleDownloadUnedited(state: map<string, Option<string>>, cards: seq<(string, Option<string>)>, key: string)
    requires Distinct(Keys(cards))
    ensures forall i :: 0 <= i < |cards| ==>
      SingleDownload(Remembered(state, cards), cards[i].0) ==
        Ready(if cards[i].1.None? then TypeError(cards[i].0, Header(cards[i].0))
              else Complete(Block(cards[i].0, cards[i].1.value)))
    ensures key !in Keys(cards) && TextKey(key) !in state ==>
      SingleDownload(Remembered(state, cards), key) == MissingKey(TextKey(key))
  {
    RememberedFacts(state, cards);
    forall i | 0 <= i < |cards|
      ensures SingleDownload(Remembered(state, cards), cards[i].0) ==
        Ready(if cards[i].1.None? then TypeError(cards[i].0, Header(cards[i].0))
              else Complete(Block(cards[i].0, cards[i].1.value)))
    {
      SerializeSingle(cards[i].0, cards[i].1);
    }
    if key !in Keys(cards) {
      forall i | 0 <= i < |cards| ensures TextKeys(cards)[i] != TextKey(key) {
        assert Keys(cards)[i] != key;
        TextKeyInjective(cards[i].0, key);
      }
    }
  }

  /**
   * After an edit the single download of that battlecard is exactly the edited text, whatever the
   * card held before (a failed generation included); a one-line label reads back with the edit.
   */
  lemma EditedSingleDownload(state: map<string, Option<string>>, key: string, text: string)
    ensures var edited := state[TextKey(key) := Some(text)];
      SingleDownload(edited, key) == Ready(Complete(Block(key, text)))
      && ('\n' !in key ==> ParseBlock(SingleDownload(edited, key).written.text) == Some((key, text)))
  {
    SerializeSingle(key, Some(text));
    if '\n' !in key {
      ParseBlockInverse(key, text);
    }
  }

  /**
   * The download of all battlecards is built from the dict, not from the session: when it completes
   * it holds each card's generated block, whatever was edited.
   */
  lemma AllDownloadHoldsGenerated(cards: seq<(string, Option<string>)>, i: nat)
    requires i < |cards| && AllPresent(cards)
    ensures Serialize(cards).Complete?
    ensures Contains(Serialize(cards).text, Block(cards[i].0, cards[i].1.value))
  {
    SerializeCompletes(cards);
    ConcatContainsPiece(Blocks(cards), i);
  }
}
