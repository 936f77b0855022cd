/**
  What the checkout form offers before the card inputs: one radio option per
  saved card and a "new card" option, and the removal of the `name`
  attribute from the card inputs' markup so that raw card data is never part
  of the submitted form.
 */
module PaymentFields {
  import opened Php
  import opened Stripe
  import opened CardStore

  /** One `<input type="radio" name="wc_stripe_card">` with its label. */
  datatype RadioOption = RadioOption(id: string, value: string, text: string)

  /** "Card ending with {last4} ({month}/{year})". */
  function CardLabel(card: SavedCard): string {
    "Card ending with " + card.last4 + Expiry(card)
  }

  /** " ({month}/{year})", the expiry as the label prints it. */
  function Expiry(card: SavedCard): string {
    " (" + DecimalText(card.expMonth) + "/" + DecimalText(card.expYear) + ")"
  }

  /** The label shows the card's last four digits after "Card ending with ",
      then its expiry month and year in parentheses. */
  lemma CardLabelShowsCard(card: SavedCard)
    ensures var text := CardLabel(card);
            && |text| > 17 + |card.last4| && text[..17] == "Card ending with "
            && text[17..17 + |card.last4|] == card.last4
            && text[17 + |card.last4|..] == " (" + DecimalText(card.expMonth) + "/" + DecimalText(card.expYear) + ")"
  {
  }

  /** Two saved cards with last four digits of the same length get the same
      label only when they show the same digits and the same expiry: the
      label tells the shopper which card an option stands for. */
  lemma CardLabelIdentifiesCard(c1: SavedCard, c2: SavedCard)
    requires |c1.last4| == |c2.last4|
    requires CardLabel(c1) == CardLabel(c2)
    ensures c1.last4 == c2.last4
    ensures c1.expMonth == c2.expMonth && c1.expYear == c2.expYear
  {
    CardLabelShowsCard(c1);
    CardLabelShowsCard(c2);
    ExpiryIdentifiesDate(c1, c2);
  }

  /** The printed expiry determines the month and the year. */
  lemma ExpiryIdentifiesDate(c1: SavedCard, c2: SavedCard)
    requires Expiry(c1) == Expiry(c2)
    ensures c1.expMonth == c2.expMonth && c1.expYear == c2.expYear
  {
    var m1, m2 := DecimalText(c1.expMonth), DecimalText(c2.expMonth);
    var y1, y2 := DecimalText(c1.expYear), DecimalText(c2.expYear);
    DecimalRoundTrip(c1.expMonth);
    DecimalRoundTrip(c2.expMonth);
    DecimalRoundTrip(c1.expYear);
    DecimalRoundTrip(c2.expYear);
    var e := Expiry(c1);
    assert e == " (" + m1 + "/" + y1 + ")";
    assert e == " (" + m2 + "/" + y2 + ")";
    if |m1| < |m2| {
      SlashEndsDigits(m1, y1, m2, y2);
      assert false;
    } else if |m2| < |m1| {
      SlashEndsDigits(m2, y2, m1, y1);
      assert false;
    }
    assert m1 == e[2..2 + |m1|] == m2;
    assert y1 == e[3 + |m1|..|e| - 1] == y2;
  }

  /** A "/" right after a shorter run of digits cannot line up with a longer
      run of digits. */
  lemma SlashEndsDigits(a1: string, b1: string, a2: string, b2: string)
    requires AllDigits(a2) && |a1| < |a2|
    ensures " (" + a1 + "/" + b1 + ")" != " (" + a2 + "/" + b2 + ")"
  {
    assert (" (" + a1 + "/" + b1 + ")")[2 + |a1|] == '/';
    assert (" (" + a2 + "/" + b2 + ")")[2 + |a1|] == a2[|a1|];
  }

  const NewCardOption: RadioOption := RadioOption("new_card", "new", "Use a new credit card")

  /** The saved-card options rendered for the current user: nothing for a
      guest or a user without saved cards; otherwise one option per saved
      card, in order, whose value is the card's index, then the "new card"
      option. Every option's value, posted back as `wc_stripe_card`, selects
      what the option shows. */
  method SavedCardOptions(loggedIn: bool, cards: seq<SavedCard>) returns (options: seq<RadioOption>)
    ensures !loggedIn || cards == [] ==> options == []
    ensures loggedIn && cards != [] ==> |options| == |cards| + 1 && options[|cards|] == NewCardOption
    ensures forall i :: 0 <= i < |options| - 1 ==>
              && i < |cards|
              && options[i].id == "stripe_card_" + options[i].value
              && options[i].text == CardLabel(cards[i])
              && ChosenCardId(cards, options[i].value) == Present(cards[i].cardId)
              && options[i].value != NewCardOption.value
  {
    options := [];
    if !loggedIn || cards == [] {
      return;
    }
    var i := 0;
    while i < |cards|
      invariant 0 <= i <= |cards|
      invariant |options| == i
      invariant forall j :: 0 <= j < i ==>
                  && options[j].id == "stripe_card_" + options[j].value
                  && options[j].text == CardLabel(cards[j])
                  && ChosenCardId(cards, options[j].value) == Present(cards[j].cardId)
                  && options[j].value != NewCardOption.value
    {
      var value := DecimalText(i);
      ChosenCardRoundTrip(cards, i, value);
      options := options + [RadioOption("stripe_card_" + value, value, CardLabel(cards[i]))];
      i := i + 1;
    }
    options := options + [NewCardOption];
  }

  /** `preg_replace('/name=".*?\"/i', '', html)`.

      `AttributeAt(s)` is the length of the match starting at the head of
      `s`: the four letters of "name" in any case, `="`, then the shortest
      run of characters other than a line feed up to the next `"`. */
  function AttributeAt(s: string): (n: Option<nat>)
    ensures n.Some? ==> 7 <= n.value <= |s|
  {
    if |s| >= 6 && NameOpensAt(s) then ClosingQuote(s, 6) else None
  }

  /** `s` starts with "name" in any case followed by `="`. */
  predicate NameOpensAt(s: string)
    requires |s| >= 6
  {
    && LowerChar(s[0]) == 'n' && LowerChar(s[1]) == 'a'
    && LowerChar(s[2]) == 'm' && LowerChar(s[3]) == 'e'
    && s[4] == '=' && s[5] == '"'
  }

  /** The end of the lazy `.*?"` starting at `j`: one past the first `"`,
      unless a line feed or the end of the text comes first. */
  function ClosingQuote(s: string, j: nat): (n: Option<nat>)
    requires j <= |s|
    ensures n.Some? ==> j < n.value <= |s| && s[n.value - 1] == '"'
    ensures n.Some? ==> forall k :: j <= k < n.value - 1 ==> s[k] != '"' && s[k] != '\n'
    decreases |s| - j
  {
    if j == |s| || s[j] == '\n' then None
    else if s[j] == '"' then Some(j + 1)
    else ClosingQuote(s, j + 1)
  }

  /** Scanning left to right, every match is removed and the scan resumes
      after it; every other character is kept. */
  function StripNameAttributes(s: string): (r: string)
    ensures |r| <= |s|
    decreases |s|
  {
    if s == [] then []
    else match AttributeAt(s)
      case Some(n) => StripNameAttributes(s[n..])
      case None => [s[0]] + StripNameAttributes(s[1..])
  }

  /** No match starts anywhere in `s`. */
  predicate NoAttributeIn(s: string) {
    forall i :: 0 <= i < |s| ==> AttributeAt(s[i..]).None?
  }

  /** Markup without a `name="..."` attribute passes through unchanged. */
  lemma {:induction false} StripKeepsPlainMarkup(s: string)
    requires NoAttributeIn(s)
    ensures StripNameAttributes(s) == s
    decreases |s|
  {
    if s != [] {
      assert AttributeAt(s[0..]).None?;
      assert s[0..] == s;
      assert NoAttributeIn(s[1..]) by {
        forall i | 0 <= i < |s[1..]| ensures AttributeAt(s[1..][i..]).None? {
          assert s[1..][i..] == s[i + 1..];
        }
      }
      StripKeepsPlainMarkup(s[1..]);
    }
  }

  /** No match starts in the first `m` characters of `s`. */
  predicate NoAttributeBefore(s: string, m: nat)
    requires m <= |s|
  {
    forall i :: 0 <= i < m ==> AttributeAt(s[i..]).None?
  }

  /** Text before which no match starts is kept as it is. */
  lemma {:induction false} StripKeepsPrefix(s: string, m: nat)
    requires m <= |s| && NoAttributeBefore(s, m)
    ensures StripNameAttributes(s) == s[..m] + StripNameAttributes(s[m..])
    decreases m
  {
    if m == 0 {
      assert s[0..] == s;
    } else {
      assert s[0..] == s;
      StripKeeps(s);
      NoAttributeBeforeTail(s, m);
      StripKeepsPrefix(s[1..], m - 1);
      assert s[1..][m - 1..] == s[m..];
      ConsPrefix(s, m, StripNameAttributes(s[m..]));
    }
  }

  /** Dropping the first character keeps "no match before" for the rest. */
  lemma NoAttributeBeforeTail(s: string, m: nat)
    requires 0 < m <= |s| && NoAttributeBefore(s, m)
    ensures NoAttributeBefore(s[1..], m - 1)
  {
    forall i | 0 <= i < m - 1 ensures AttributeAt(s[1..][i..]).None? {
      assert s[1..][i..] == s[i + 1..];
    }
  }

  lemma ConsPrefix(s: string, m: nat, x: string)
    requires 0 < m <= |s|
    ensures [s[0]] + (s[1..][..m - 1] + x) == s[..m] + x
  {
    assert [s[0]] + s[1..][..m - 1] == s[..m];
  }

  /** One step of the scan where no match starts. */
  lemma StripKeeps(s: string)
    requires s != [] && AttributeAt(s).None?
    ensures StripNameAttributes(s) == [s[0]] + StripNameAttributes(s[1..])
  {
  }

  /** A `name="value"` attribute (any case of "name") whose value holds no
      quote and no line feed is removed with its value, and only it: the
      markup before it is kept and the markup after it is stripped in turn. */
  lemma StripRemovesAttribute(pre: string, name: string, value: string, post: string)
    requires Lower(name) == "name"
    requires forall k :: 0 <= k < |value| ==> value[k] != '"' && value[k] != '\n'
    requires forall i :: 0 <= i < |pre| ==>
               AttributeAt((pre + name + "=\"" + value + "\"" + post)[i..]).None?
    ensures StripNameAttributes(pre + name + "=\"" + value + "\"" + post)
            == pre + StripNameAttributes(post)
  {
    var rest := name + "=\"" + value + "\"" + post;
    var s := pre + name + "=\"" + value + "\"" + post;
    assert s == pre + rest;
    assert s[..|pre|] == pre && s[|pre|..] == rest;
    StripKeepsPrefix(s, |pre|);
    AttributeAtHead(name, value, post);
    StripSkips(rest, 7 + |value|);
  }

  /** A well-formed attribute at the head of the text is one match, and the
      scan resumes right after its closing quote. */
  lemma AttributeAtHead(name: string, value: string, post: string)
    requires Lower(name) == "name"
    requires forall k :: 0 <= k < |value| ==> value[k] != '"' && value[k] != '\n'
    ensures AttributeAt(name + "=\"" + value + "\"" + post) == Some(7 + |value|)
    ensures (name + "=\"" + value + "\"" + post)[7 + |value|..] == post
  {
    var rest := name + "=\"" + value + "\"" + post;
    assert |name| == |Lower(name)| == 4;
    assert rest[..4] == name;
    assert LowerChar(name[0]) == 'n' && LowerChar(name[1]) == 'a' by {
      assert Lower(name)[0] == LowerChar(name[0]) && Lower(name)[1] == LowerChar(name[1]);
    }
    assert LowerChar(name[2]) == 'm' && LowerChar(name[3]) == 'e' by {
      assert Lower(name)[2] == LowerChar(name[2]) && Lower(name)[3] == LowerChar(name[3]);
    }
    assert rest[4] == '=' && rest[5] == '"';
    assert NameOpensAt(rest);
    assert rest[6..6 + |value|] == value && rest[6 + |value|] == '"';
    ClosingQuoteAfter(rest, value);
  }

  /** One step of the scan where a match of length `n` starts. */
  lemma StripSkips(s: string, n: nat)
    requires s != [] && AttributeAt(s) == Some(n)
    ensures StripNameAttributes(s) == StripNameAttributes(s[n..])
  {
  }

  lemma ClosingQuoteAfter(rest: string, value: string)
    requires |rest| >= 7 + |value|
    requires rest[6..6 + |value|] == value && rest[6 + |value|] == '"'
    requires forall k :: 0 <= k < |value| ==> value[k] != '"' && value[k] != '\n'
    ensures ClosingQuote(rest, 6) == Some(7 + |value|)
  {
    var j := 6 + |value|;
    while j > 6
      invariant 6 <= j <= 6 + |value|
      invariant ClosingQuote(rest, j) == Some(7 + |value|)
    {
      assert rest[j - 1] == value[j - 1 - 6];
      j := j - 1;
    }
  }
}
