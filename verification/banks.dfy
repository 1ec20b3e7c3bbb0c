/** The fixed table of word banks and the lookup `getCurrentBank` performs. */
module Banks {
  import opened Json

  datatype BankInfo = BankInfo(name: string, count: nat)

  /** Hand-kept metadata: display name and declared word count per bank file. */
  const BankTable: map<string, BankInfo> := map[
    "words.txt" := BankInfo("我的词库 (3500词)", 3500),
    "words_basic.txt" := BankInfo("基础词汇", 100),
    "words_intermediate.txt" := BankInfo("中级词汇", 200),
    "words_advanced.txt" := BankInfo("高级词汇", 300),
    "words_exam.txt" := BankInfo("考试重点", 500),
    "words_custom.txt" := BankInfo("自定义库", 0),
    "all" := BankInfo("全部词汇", 4100)
  ]

  /** The entry every unknown identifier resolves to. */
  const UnknownBank := BankInfo("未知词库", 0)

  predicate Known(bank: Value) {
    bank.Str? && bank.s in BankTable
  }

  /**
   * A known identifier gets its table entry, anything else the "unknown"
   * entry with count 0; no bank declares more than 4100 words.
   */
  function LookupBank(bank: Value): (r: BankInfo)
    ensures Known(bank) ==> r == BankTable[bank.s]
    ensures !Known(bank) ==> r == UnknownBank
    ensures r.count <= 4100
    ensures r == UnknownBank <==> !Known(bank)
  {
    if Known(bank) then BankTable[bank.s] else UnknownBank
  }
}
