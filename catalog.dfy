/**
  The shape of the mistake catalog that several views consume, and its
  category names. The catalog's prose (descriptions, links, snippets) is
  static data and is not reproduced.
 */
module Catalog {

  datatype Mistake = Mistake(
    id: string,
    category: string,
    title: string,
    brokenCode: string,
    fixedCode: string)

  const REACT: string := "React Core"
  const CSS: string := "CSS Architecture"
  const HOOKS: string := "Hooks & API"
  const PERF: string := "Performance"
  const SECURITY: string := "Security & A11y"

  const CATEGORIES: seq<string> := [REACT, CSS, HOOKS, PERF, SECURITY]
}
