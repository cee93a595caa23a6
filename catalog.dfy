/** The static topic catalogue `PROMPTS`: six entries keyed "1" to "6".
    Only the keys and titles are modelled; each system prompt is a
    placeholder standing for the text of its entry. */
module Catalog {

  /** One catalogue entry: the title shown on its button and in the
      chat header, and the system prompt sent to the language model. */
  datatype Topic = Topic(title: string, systemPrompt: string)

  const Prompts: map<string, Topic> := map[
    "1" := Topic("Social Norms - Crying in Public Parks", "<system prompt of topic 1>"),
    "2" := Topic("Mental Health & Wellness", "<system prompt of topic 2>"),
    "3" := Topic("Climate Change & Sustainability", "<system prompt of topic 3>"),
    "4" := Topic("Digital Wellness & Technology Use", "<system prompt of topic 4>"),
    "5" := Topic("Social Connection & Community", "<system prompt of topic 5>"),
    "6" := Topic("Lifelong Learning & Personal Growth", "<system prompt of topic 6>")
  ]

  /** The catalogue has exactly the keys "1" to "6", and each has a title. */
  lemma CatalogKeys()
    ensures Prompts.Keys == {"1", "2", "3", "4", "5", "6"}
    ensures forall k :: k in Prompts ==> Prompts[k].title != ""
  {
  }
}
