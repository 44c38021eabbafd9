/**
 The model-selection card sent on Google Chat (`create_button`,
 `create_cards_for_google_chat`): one button per catalog entry, each of
 which echoes the entry's identifier back to the handler when clicked.
 */
module Cards {
  import opened Catalog

  /** One key/value parameter of a button's click action. */
  datatype Param = Param(key: string, value: string)

  /** A button: its label, the action function it invokes and the
      parameters the platform echoes back on a click. */
  datatype Button = Button(text: string, actionFunction: string, parameters: seq<Param>)

  /** A card widget; the handler only uses button lists. */
  datatype Widget = ButtonList(buttons: seq<Button>)

  datatype Section = Section(widgets: seq<Widget>)

  datatype Card = Card(name: string, headerTitle: string, sections: seq<Section>)

  /** One entry of the `cardsV2` list. */
  datatype CardEntry = CardEntry(cardId: string, card: Card)

  /** The reply payload `{"cardsV2": [...]}`. */
  datatype CardMessage = CardMessage(cardsV2: seq<CardEntry>)

  /** The parameter key carrying the selected model. */
  const SelectKey: string := "select_model"

  /** The header of the card, "please choose a model". */
  const CardTitle: string := "モデルを選択してください"

  /** The button for one catalog entry. The user's e-mail is accepted and
      ignored, as in the handler. */
  function CreateButton(baseModel: string, variation: string, userEmail: string): (b: Button)
    ensures |b.text| == |baseModel| + 2 + |variation|
    ensures b.text[..|baseModel|] == baseModel && b.text[|baseModel|..|baseModel| + 2] == ": "
    ensures b.text[|baseModel| + 2..] == variation
    ensures b.parameters == [Param(SelectKey, variation)]
  {
    Button(baseModel + ": " + variation, "model_request", [Param(SelectKey, variation)])
  }

  /** The model-selection card: one button per catalog entry, in catalog
      order, labelled `family: identifier` and carrying the identifier as its
      single `select_model` parameter. */
  function CreateCards(userEmail: string): (m: CardMessage)
    ensures |AllButtons(m)| == |Choices(Models)|
    ensures forall i :: 0 <= i < |Choices(Models)| ==>
      && AllButtons(m)[i].text == Choices(Models)[i].baseModel + ": " + Choices(Models)[i].name
      && AllButtons(m)[i].parameters == [Param(SelectKey, Choices(Models)[i].name)]
  {
    var cs := Choices(Models);
    var buttons := seq(|cs|, i requires 0 <= i < |cs| => CreateButton(cs[i].baseModel, cs[i].name, userEmail));
    SingleButtonList("modelSelect", "model select", CardTitle, buttons);
    CardMessage([CardEntry("modelSelect", Card("model select", CardTitle, [Section([ButtonList(buttons)])]))])
  }

  /** A message of one card with one section holding one button list has
      exactly that list's buttons. */
  lemma SingleButtonList(cardId: string, name: string, title: string, buttons: seq<Button>)
    ensures AllButtons(CardMessage([CardEntry(cardId, Card(name, title, [Section([ButtonList(buttons)])]))])) == buttons
  {
    var ws := [ButtonList(buttons)];
    var ss := [Section(ws)];
    var es := [CardEntry(cardId, Card(name, title, ss))];
    assert ws[1..] == [] && ss[1..] == [] && es[1..] == [];
    assert FlattenWidgets(ws) == buttons;
    assert FlattenSections(ss) == buttons;
    assert FlattenEntries(es) == buttons;
  }

  /** The buttons of a card message, in order, over all its cards, sections
      and widgets. */
  function AllButtons(m: CardMessage): seq<Button>
  {
    FlattenEntries(m.cardsV2)
  }

  function FlattenEntries(es: seq<CardEntry>): seq<Button>
  {
    if |es| == 0 then [] else FlattenSections(es[0].card.sections) + FlattenEntries(es[1..])
  }

  function FlattenSections(ss: seq<Section>): seq<Button>
  {
    if |ss| == 0 then [] else FlattenWidgets(ss[0].widgets) + FlattenSections(ss[1..])
  }

  function FlattenWidgets(ws: seq<Widget>): seq<Button>
  {
    if |ws| == 0 then [] else ws[0].buttons + FlattenWidgets(ws[1..])
  }

  /** The value a click on `b` echoes: its first parameter's value. */
  function ClickValue(b: Button): string
    requires |b.parameters| > 0
  {
    b.parameters[0].value
  }

  /** The card holds exactly one button per catalog entry, in catalog order;
      each is labelled `family: identifier` and carries the identifier as its
      single `select_model` parameter. Which user asked does not matter. */
  lemma CardMatchesCatalog(userEmail: string)
    ensures |AllButtons(CreateCards(userEmail))| == |Choices(Models)|
    ensures forall i :: 0 <= i < |Choices(Models)| ==>
      var b := AllButtons(CreateCards(userEmail))[i];
      var c := Choices(Models)[i];
      b.text == c.baseModel + ": " + c.name && b.parameters == [Param(SelectKey, c.name)]
    ensures forall other :: CreateCards(other) == CreateCards(userEmail)
  {
    var m := CreateCards(userEmail);
    var buttons := m.cardsV2[0].card.sections[0].widgets[0].buttons;
    forall other ensures CreateCards(other) == m {
      var others := CreateCards(other).cardsV2[0].card.sections[0].widgets[0].buttons;
      assert others == buttons by {
        forall i | 0 <= i < |buttons| ensures others[i] == buttons[i] { }
      }
    }
  }

  /** Clicking any button of the card echoes a catalog identifier, and
      distinct buttons echo distinct identifiers. */
  lemma CardValuesAreModels(userEmail: string)
    ensures forall b :: b in AllButtons(CreateCards(userEmail)) ==>
      |b.parameters| == 1 && IsModelName(Models, ClickValue(b))
    ensures forall i, j :: 0 <= i < j < |AllButtons(CreateCards(userEmail))| ==>
      ClickValue(AllButtons(CreateCards(userEmail))[i]) != ClickValue(AllButtons(CreateCards(userEmail))[j])
  {
    CardMatchesCatalog(userEmail);
    CatalogWellFormed();
    var bs := AllButtons(CreateCards(userEmail));
    forall b | b in bs ensures |b.parameters| == 1 && IsModelName(Models, ClickValue(b)) {
      var i :| 0 <= i < |bs| && bs[i] == b;
      assert Choices(Models)[i] in Choices(Models);
    }
  }
}
