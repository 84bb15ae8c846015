/** Future predictions: the model's reply is cut down to its JSON object,
    read into an optional record, normalised into a prediction with every
    field defaulted and the confidence clamped, and kept newest first in a
    list the user filters by category. */
module FuturePrediction {
  import opened Types
  import Text
  import Seqs

  /** A stored prediction; `confidence` is a percentage. */
  datatype Prediction = Prediction(
    id: string,
    category: string,
    title: string,
    description: string,
    confidence: int,
    timeframe: string,
    impact: string,
    recommendations: seq<string>)

  /** What reading the JSON object yields: each field present or not;
      `recommendations` is present only when the value is an array. */
  datatype Parsed = Parsed(
    title: Option<string>,
    description: Option<string>,
    confidence: Option<int>,
    timeframe: Option<string>,
    impact: Option<string>,
    recommendations: Option<seq<string>>)

  const DefaultConfidence := 70
  const DefaultTimeframe := "Next quarter"
  const DefaultImpact := "medium"
  const DefaultRecommendations := ["Monitor trends closely", "Prepare contingency plans", "Stay informed"]

  /** The title used when the reply gives none. */
  function DefaultTitle(category: string): string
  {
    "Future Insights: " + category
  }

  // ----- extracting the JSON object -----

  /** The first position of `c` in `s`. */
  function FirstIndex(s: string, c: char): (r: Option<nat>)
    ensures r.None? <==> c !in s
    ensures r.Some? ==> r.value < |s| && s[r.value] == c && forall k :: 0 <= k < r.value ==> s[k] != c
  {
    if s == [] then None
    else if s[0] == c then Some(0)
    else
      var r := FirstIndex(s[1..], c);
      assert s == [s[0]] + s[1..];
      if r.Some? then Some(r.value + 1) else None
  }

  /** The last position of `c` in `s`. */
  function LastIndex(s: string, c: char): (r: Option<nat>)
    ensures r.None? <==> c !in s
    ensures r.Some? ==> r.value < |s| && s[r.value] == c && forall k :: r.value < k < |s| ==> s[k] != c
  {
    if s == [] then None
    else if s[|s| - 1] == c then Some(|s| - 1)
    else
      var r := LastIndex(s[..|s| - 1], c);
      assert s == s[..|s| - 1] + [s[|s| - 1]];
      r
  }

  /** The greedy match of a brace, anything, and a brace: from the first
      `{` to the last `}`. There is a match exactly when some `{` comes
      before some `}`; the match opens and closes with a brace, and no `{`
      lies before it and no `}` after it. */
  function ExtractJson(s: string): (r: Option<string>)
    ensures r.Some? <==> exists i, j :: 0 <= i < j < |s| && s[i] == '{' && s[j] == '}'
    ensures r.Some? ==>
      && |r.value| >= 2 && r.value[0] == '{' && r.value[|r.value| - 1] == '}'
      && exists i :: Text.OccursAt(s, r.value, i) && '{' !in s[..i] && '}' !in s[i + |r.value|..]
  {
    var first := FirstIndex(s, '{');
    var last := LastIndex(s, '}');
    if first.Some? && last.Some? && first.value < last.value then
      var r := s[first.value..last.value + 1];
      assert Text.OccursAt(s, r, first.value);
      Some(r)
    else
      None
  }

  // ----- normalising -----

  /** The record used when the reply holds no JSON object or it does not read. */
  function Fallback(category: string, text: string): Parsed
  {
    Parsed(Some(DefaultTitle(category)), Some(text), Some(DefaultConfidence), Some(DefaultTimeframe),
      Some(DefaultImpact), Some(DefaultRecommendations))
  }

  /** The record read from the reply. `parse` reads a JSON object, giving
      `None` when the text does not read. */
  function ReadReply(text: string, category: string, parse: string -> Option<Parsed>): (r: Parsed)
    ensures ExtractJson(text).None? ==> r == Fallback(category, text)
    ensures ExtractJson(text).Some? && parse(ExtractJson(text).value).None? ==> r == Fallback(category, text)
    ensures ExtractJson(text).Some? && parse(ExtractJson(text).value).Some? ==> r == parse(ExtractJson(text).value).value
  {
    match ExtractJson(text)
    case None => Fallback(category, text)
    case Some(json) =>
      match parse(json)
      case None => Fallback(category, text)
      case Some(p) => p
  }

  /** A field read as true in a condition: present and not empty. */
  function OrDefault(v: Option<string>, d: string): (r: string)
    ensures v.Some? && v.value != [] ==> r == v.value
    ensures v.None? || v.value == [] ==> r == d
  {
    if v.Some? && v.value != [] then v.value else d
  }

  /** A missing or zero confidence becomes 70; the result is clamped to 0..100. */
  function ClampConfidence(c: Option<int>): (r: int)
    ensures 0 <= r <= 100
    ensures c.None? || c.value == 0 ==> r == DefaultConfidence
    ensures c.Some? && 0 < c.value <= 100 ==> r == c.value
    ensures c.Some? && c.value < 0 ==> r == 0
    ensures c.Some? && c.value > 100 ==> r == 100
  {
    var v := if c.Some? && c.value != 0 then c.value else DefaultConfidence;
    if v < 0 then 0 else if v > 100 then 100 else v
  }

  /** The stored prediction: every missing field takes its default. */
  function Normalised(id: string, category: string, text: string, p: Parsed): (r: Prediction)
    ensures r.id == id && r.category == category
    ensures 0 <= r.confidence <= 100
    ensures r.title != [] && r.timeframe != [] && r.impact != []
    ensures r.title == OrDefault(p.title, DefaultTitle(category))
    ensures r.description == OrDefault(p.description, text)
    ensures r.confidence == ClampConfidence(p.confidence)
    ensures r.timeframe == OrDefault(p.timeframe, DefaultTimeframe)
    ensures r.impact == OrDefault(p.impact, DefaultImpact)
    ensures p.recommendations.Some? ==> r.recommendations == p.recommendations.value
    ensures p.recommendations.None? ==> r.recommendations == DefaultRecommendations
  {
    Prediction(id, category,
      OrDefault(p.title, DefaultTitle(category)),
      OrDefault(p.description, text),
      ClampConfidence(p.confidence),
      OrDefault(p.timeframe, DefaultTimeframe),
      OrDefault(p.impact, DefaultImpact),
      if p.recommendations.Some? then p.recommendations.value else DefaultRecommendations)
  }

  /** A reply without a readable JSON object gives the fallback prediction. */
  lemma FallbackPrediction(id: string, category: string, text: string, parse: string -> Option<Parsed>)
    requires ExtractJson(text).None? || parse(ExtractJson(text).value).None?
    ensures Normalised(id, category, text, ReadReply(text, category, parse)) ==
      Prediction(id, category, DefaultTitle(category), text, DefaultConfidence, DefaultTimeframe,
        DefaultImpact, DefaultRecommendations)
  {
  }

  /** How a confidence is coloured. */
  datatype Shade = Green | Yellow | Orange

  /** Green from 80, yellow from 60, orange below. */
  function ConfidenceShade(confidence: int): (s: Shade)
    ensures s == Green <==> confidence >= 80
    ensures s == Yellow <==> 60 <= confidence < 80
    ensures s == Orange <==> confidence < 60
  {
    if confidence >= 80 then Green else if confidence >= 60 then Yellow else Orange
  }

  // ----- the list -----

  /** The category that shows every prediction. */
  const AllCategories := "all"

  /** The category the button opens the custom form for. */
  const CustomCategory := "Custom"

  /** The predictions of the selected category, in list order. */
  function Filtered(ps: seq<Prediction>, selected: string): (r: seq<Prediction>)
    ensures selected == AllCategories ==> r == ps
    ensures selected != AllCategories ==> forall p :: p in r <==> p in ps && p.category == selected
  {
    if selected == AllCategories then ps else Seqs.Filter(ps, (p: Prediction) => p.category == selected)
  }

  /** Removes the predictions with `id`. */
  function Deleted(ps: seq<Prediction>, id: string): (r: seq<Prediction>)
    ensures forall x :: x in r <==> x in ps && x.id != id
  {
    Seqs.Filter(ps, (p: Prediction) => p.id != id)
  }

  /** Deleting keeps the other predictions in their order: it works piece
      by piece, and a prediction with another id is kept where it stood. */
  lemma DeletedKeepsOrder(a: seq<Prediction>, b: seq<Prediction>, x: Prediction, id: string)
    ensures Deleted(a + b, id) == Deleted(a, id) + Deleted(b, id)
    ensures x.id != id ==> Deleted([x], id) == [x]
    ensures x.id == id ==> Deleted([x], id) == []
  {
    Seqs.FilterConcat(a, b, (p: Prediction) => p.id != id);
    assert [x][1..] == [];
  }

  /** The whole panel at once. */
  datatype Panel = Panel(
    predictions: seq<Prediction>,
    isGenerating: bool,
    selectedCategory: string,
    customPrompt: string,
    showCustomForm: bool)

  /** The panel after a generation: a reply prepends its prediction and
      closes the custom form; a failed request changes nothing; either way
      generation is over. */
  function AfterGenerate(b: Panel, category: string, id: string, reply: Option<string>,
                         parse: string -> Option<Parsed>): Panel
  {
    match reply
    case None => b.(isGenerating := false)
    case Some(text) =>
      b.(predictions := [Normalised(id, category, text, ReadReply(text, category, parse))] + b.predictions,
         showCustomForm := false, customPrompt := [], isGenerating := false)
  }

  /** A generation never drops or reorders what was there: the old list is
      the tail of the new one, which is at most one longer. */
  lemma GenerateKeepsList(b: Panel, category: string, id: string, reply: Option<string>,
                          parse: string -> Option<Parsed>)
    ensures var a := AfterGenerate(b, category, id, reply, parse);
      && !a.isGenerating
      && (reply.None? ==> a.predictions == b.predictions)
      && (reply.Some? ==> |a.predictions| == |b.predictions| + 1 && a.predictions[1..] == b.predictions
                          && a.predictions[0].id == id && a.predictions[0].category == category)
  {
    if reply.Some? {
      var a := AfterGenerate(b, category, id, reply, parse);
      assert a.predictions == [a.predictions[0]] + b.predictions;
    }
  }

  class PredictionBoard {
    var predictions: seq<Prediction>
    var isGenerating: bool
    var selectedCategory: string
    var customPrompt: string
    var showCustomForm: bool

    function State(): Panel
      reads this
    {
      Panel(predictions, isGenerating, selectedCategory, customPrompt, showCustomForm)
    }

    constructor()
      ensures State() == Panel([], false, AllCategories, [], false)
    {
      predictions := [];
      isGenerating := false;
      selectedCategory := AllCategories;
      customPrompt := [];
      showCustomForm := false;
    }

    /** Asks for a prediction about `category`. `reply` is the model's text,
        `None` when the request fails; a reply without text reads as empty.
        `id` names the new prediction. */
    method Generate(category: string, id: string, reply: Option<string>, parse: string -> Option<Parsed>)
      modifies this
      ensures State() == AfterGenerate(old(State()), category, id, reply, parse)
    {
      isGenerating := true;
      if reply.Some? {
        var text := reply.value;
        var parsed := ReadReply(text, category, parse);
        predictions := [Normalised(id, category, text, parsed)] + predictions;
        showCustomForm := false;
        customPrompt := [];
      }
      isGenerating := false;
    }

    /** The custom category opens the form; any other generates at once. */
    method CategorySelect(category: string, id: string, reply: Option<string>, parse: string -> Option<Parsed>)
      modifies this
      ensures category == CustomCategory ==> State() == old(State()).(showCustomForm := true)
      ensures category != CustomCategory ==> State() == AfterGenerate(old(State()), category, id, reply, parse)
    {
      if category == CustomCategory {
        showCustomForm := true;
      } else {
        Generate(category, id, reply, parse);
      }
    }

    /** Submits the custom form: a prompt that is only whitespace (trims to
        nothing) changes nothing; otherwise a custom prediction is generated. */
    method CustomSubmit(id: string, reply: Option<string>, parse: string -> Option<Parsed>)
      modifies this
      ensures Text.IsBlank(old(customPrompt)) ==> State() == old(State())
      ensures !Text.IsBlank(old(customPrompt)) ==>
        State() == AfterGenerate(old(State()), CustomCategory, id, reply, parse)
    {
      if !Text.IsBlank(customPrompt) {
        Generate(CustomCategory, id, reply, parse);
      }
    }

    /** Clicking a category tab of the list filter. */
    method SetSelectedCategory(category: string)
      modifies this
      ensures State() == old(State()).(selectedCategory := category)
    {
      selectedCategory := category;
    }

    /** Typing in the custom prompt. */
    method SetCustomPrompt(text: string)
      modifies this
      ensures State() == old(State()).(customPrompt := text)
    {
      customPrompt := text;
    }

    /** The close and Cancel buttons of the custom form: hide it and forget the prompt. */
    method CloseCustomForm()
      modifies this
      ensures State() == old(State()).(showCustomForm := false, customPrompt := [])
    {
      showCustomForm := false;
      customPrompt := [];
    }

    /** Deletes the predictions with `id` once the user confirms. */
    method Delete(id: string, confirmed: bool)
      modifies this
      ensures State() == old(State()).(predictions := if confirmed then Deleted(old(predictions), id) else old(predictions))
    {
      if confirmed {
        predictions := Deleted(predictions, id);
      }
    }
  }
}
