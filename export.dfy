/**
 * save_battlecards_to_file (app.py:93-97): the export format, one block per battlecard,
 * `--- <label> ---\n<content>\n\n`, in the dict's insertion order. The file is the string built.
 */
module Export {
  import opened Wrappers
  import opened Text

  /**
   * What writing the file comes to: its whole text, or the `TypeError` that `card_data + "\n\n"`
   * raises when a card holds None, together with what the file held by then.
   */
  datatype Written = Complete(text: string) | TypeError(key: string, partial: string)

  function Header(key: string): string
  {
    "--- " + key + " ---\n"
  }

  function Block(key: string, content: string): string
  {
    Header(key) + content + "\n\n"
  }

  /** Every card holds generated text. */
  predicate AllPresent(cards: seq<(string, Option<string>)>)
  {
    forall i :: 0 <= i < |cards| ==> cards[i].1.Some?
  }

  /** The outcome of save_battlecards_to_file on `cards`, a card at a time. */
  function Serialize(cards: seq<(string, Option<string>)>): Written
  {
    if cards == [] then Complete("")
    else
      var (key, content) := cards[|cards| - 1];
      match Serialize(cards[..|cards| - 1])
      case TypeError(l, p) => TypeError(l, p)
      case Complete(t) =>
        if content.None? then TypeError(key, t + Header(key)) else Complete(t + Block(key, content.value))
  }

  /** The blocks of `cards`, one per card. */
  function Blocks(cards: seq<(string, Option<string>)>): (bs: seq<string>)
    requires AllPresent(cards)
    ensures |bs| == |cards|
  {
    seq(|cards|, i requires 0 <= i < |cards| => Block(cards[i].0, cards[i].1.value))
  }

  /** save_battlecards_to_file: writes a header and then the content of each card, in order. */
  method SaveBattlecards(cards: seq<(string, Option<string>)>) returns (w: Written)
    ensures w == Serialize(cards)
  {
    var file := "";
    var i := 0;
    while i < |cards|
      invariant 0 <= i <= |cards|
      invariant Serialize(cards[..i]) == Complete(file)
    {
      var (key, content) := cards[i];
      assert cards[..i + 1][..i] == cards[..i];
      file := file + Header(key);
      if content.None? {
        SerializeCompletes(cards[..i]);
        SerializeFirstFailure(cards, i);
        return TypeError(key, file);
      }
      file := file + content.value + "\n\n";
      i := i + 1;
    }
    assert cards[..i] == cards;
    w := Complete(file);
  }

  lemma ConcatSnoc(xs: seq<string>, x: string)
    ensures Concat(xs + [x]) == Concat(xs) + x
  {
    if xs != [] {
      ConcatSnoc(xs[1..], x);
      assert (xs + [x])[1..] == xs[1..] + [x];
    }
  }

  /**
   * The export completes exactly when every card holds text, and then it is the blocks of the
   * cards, concatenated in insertion order.
   */
  lemma {:induction false} SerializeCompletes(cards: seq<(string, Option<string>)>)
    ensures Serialize(cards).Complete? <==> AllPresent(cards)
    ensures AllPresent(cards) ==> Serialize(cards) == Complete(Concat(Blocks(cards)))
  {
    if cards != [] {
      var init := cards[..|cards| - 1];
      SerializeCompletes(init);
      assert AllPresent(cards) ==> AllPresent(init) by {
        forall i | 0 <= i < |init| ensures init[i] == cards[i] { }
      }
      assert AllPresent(init) && cards[|cards| - 1].1.Some? ==> AllPresent(cards) by {
        forall i | 0 <= i < |init| ensures init[i] == cards[i] { }
      }
      if AllPresent(cards) {
        var last := cards[|cards| - 1];
        assert Blocks(cards) == Blocks(init) + [Block(last.0, last.1.value)];
        ConcatSnoc(Blocks(init), Block(last.0, last.1.value));
      }
    }
  }

  /**
   * When the first card without text is card `j`, the export raises at its key, leaving the
   * blocks of the cards before it and the header of card `j` in the file.
   */
  lemma {:induction false} SerializeFirstFailure(cards: seq<(string, Option<string>)>, j: nat)
    requires j < |cards| && cards[j].1.None? && AllPresent(cards[..j])
    ensures Serialize(cards[..j]).Complete?
    ensures Serialize(cards) == TypeError(cards[j].0, Serialize(cards[..j]).text + Header(cards[j].0))
  {
    SerializeCompletes(cards[..j]);
    if j < |cards| - 1 {
      var init := cards[..|cards| - 1];
      assert init[..j] == cards[..j];
      SerializeFirstFailure(init, j);
    } else {
      assert cards[..|cards| - 1] == cards[..j];
    }
  }

  /** Reads a single block back into its key and content. */
  function ParseBlock(s: string): Option<(string, string)>
  {
    if |s| < 4 || s[..4] != "--- " then None
    else
      var line := IndexOf(s[4..], '\n');
      if line == |s| - 4 || line < 4 || s[line..4 + line] != " ---" then None
      else
        var body := s[4 + line + 1..];
        if |body| < 2 || body[|body| - 2..] != "\n\n" then None
        else Some((s[4..line], body[..|body| - 2]))
  }

  /** A block whose key is one line reads back as that key and exactly that content. */
  lemma ParseBlockInverse(key: string, content: string)
    requires '\n' !in key
    ensures ParseBlock(Block(key, content)) == Some((key, content))
  {
    var s := Block(key, content);
    var head := key + " ---";
    assert s[..4] == "--- ";
    assert s[4..] == head + ['\n'] + (content + "\n\n");
    assert '\n' !in head;
    IndexOfAfter(head, '\n', content + "\n\n");
    var line := |head|;
    assert s[line..4 + line] == " ---";
    assert s[4..line] == key;
    assert s[4 + line + 1..] == content + "\n\n";
  }
}
