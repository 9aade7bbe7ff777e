/** The constant data of `src/config.py` that the core reads: the ordered table
    of SEC filing sections. */
module Config {

  datatype Section = Section(key: string, title: string)

  /** `SEC_SECTIONS`, in its declaration (and hence iteration) order. */
  const SecSections: seq<Section> := [
    Section("item_1", "Business Overview"),
    Section("item_1a", "Risk Factors"),
    Section("item_1b", "Unresolved Staff Comments"),
    Section("item_2", "Properties"),
    Section("item_3", "Legal Proceedings"),
    Section("item_7", "MD&A"),
    Section("item_7a", "Quantitative Disclosures About Market Risk"),
    Section("item_8", "Financial Statements"),
    Section("item_9a", "Controls and Procedures")
  ]

  /** The label `detect_section` falls back to. */
  const GeneralLabel: string := "General"

  /** `FILING_TYPES`. */
  const FilingTypes: seq<string> := ["10-K", "10-Q"]
}
