/**
 * Fund-field PDF export (src/utils/pdf-export.js): the document-type
 * mapping, the conversion of extracted fields into the module/label
 * structure the backend renders, its validation, the default file name and
 * the checks the export runs before calling the backend.
 */
module PdfExport {
  import opened Wrappers
  import opened Js
  import opened Storage
  import Auth
  import FundFields

  /** `DOCUMENT_TYPE_MAPPING`: client document type to the backend's tag. */
  function Mapping(documentType: string): (r: Option<string>)
    ensures r.Some? <==> documentType in {"fund_contract", "custody_agreement", "prospectus"}
  {
    if documentType == "fund_contract" then Some("FUND_CONTRACT")
    else if documentType == "custody_agreement" then Some("CUSTODY_AGREEMENT")
    else if documentType == "prospectus" then Some("PROSPECTUS")
    else None
  }

  /** The modules `validateFieldsData` requires for each backend tag, in declaration order. */
  function RequiredModules(apiType: string): Option<seq<string>>
  {
    if apiType == "FUND_CONTRACT" then
      Some(["基金基本信息", "基金份额的发售与认购", "基金合同当事人", "基金运营与投资",
            "基金财产与估值", "基金收益与分配", "基金费用与税收"])
    else if apiType == "CUSTODY_AGREEMENT" then
      Some(["基金管理人信息", "基金托管人信息", "协议依据与约定事项", "基金资产估值与收益分配", "基金费用"])
    else if apiType == "PROSPECTUS" then
      Some(["基金管理人信息", "基金托管人信息", "基金募集与发售安排", "基金运作与估值", "基金费用"])
    else None
  }

  datatype Validation = Valid | Invalid(error: string)

  /** The first module of `modules` that `fieldsData` lacks (a falsy value counts as missing). */
  function FirstMissing(fieldsData: Json, modules: seq<string>): (r: Option<string>)
    ensures r.None? <==> forall i :: 0 <= i < |modules| ==> Truthy(Get(fieldsData, modules[i]))
    ensures r.Some? ==> exists i :: 0 <= i < |modules| && modules[i] == r.value && !Truthy(Get(fieldsData, modules[i]))
                           && forall j :: 0 <= j < i ==> Truthy(Get(fieldsData, modules[j]))
  {
    if |modules| == 0 then None
    else if !Truthy(Get(fieldsData, modules[0])) then Some(modules[0])
    else
      var rest := FirstMissing(fieldsData, modules[1..]);
      assert forall i :: 1 <= i < |modules| ==> modules[i] == modules[1..][i - 1];
      rest
  }

  /**
   * `validateFieldsData(fieldsData, documentType)`: an unknown tag is
   * unsupported; otherwise the first missing required module is reported,
   * and the data is valid when none is missing. `fieldsData[module]` on
   * `null` or `undefined` throws.
   */
  function ValidateFieldsData(fieldsData: Json, documentType: string): (r: Res<Validation>)
    ensures RequiredModules(documentType).None? ==> r == Ok(Invalid("不支持的文档类型"))
    ensures RequiredModules(documentType).Some? && Nullish(fieldsData) ==> r == TypeError
    ensures RequiredModules(documentType).Some? && !Nullish(fieldsData) ==>
              var modules := RequiredModules(documentType).value;
              && r.Ok?
              && (r.value.Valid? <==> forall i :: 0 <= i < |modules| ==> Truthy(Get(fieldsData, modules[i])))
              && (r.value.Invalid? ==> exists i :: 0 <= i < |modules| && r.value.error == "缺少模块: " + modules[i]
                                           && !Truthy(Get(fieldsData, modules[i]))
                                           && forall j :: 0 <= j < i ==> Truthy(Get(fieldsData, modules[j])))
  {
    var modules := RequiredModules(documentType);
    if modules.None? then Ok(Invalid("不支持的文档类型"))
    else if Nullish(fieldsData) then TypeError
    else
      match FirstMissing(fieldsData, modules.value)
      case None => Ok(Valid)
      case Some(m) => Ok(Invalid("缺少模块: " + m))
  }

  // ---------------------------------------------------------------------
  // convertExtractedDataToFields
  // ---------------------------------------------------------------------

  /** One output module: its title, and for each field its output label and the extracted key it reads. */
  datatype ModuleTable = ModuleTable(title: string, fields: seq<(string, string)>)

  const CustodyTable: seq<ModuleTable> := [
      ModuleTable("基金管理人信息", [
        ("基金管理人名称", "fundManagerName"),
        ("基金管理人办公地址", "fundManagerOfficeAddress"),
        ("基金管理人邮政编码", "fundManagerPostalCode"),
        ("基金管理人法定代表人", "fundManagerLegalRepresentative"),
        ("基金管理人存续期间", "fundManagerDuration"),
        ("基金管理人组织形式", "fundManagerOrganizationForm")
      ]),
      ModuleTable("基金托管人信息", [
        ("基金托管人名称", "fundCustodianName"),
        ("基金托管人办公地址", "fundCustodianOfficeAddress"),
        ("基金托管人邮政编码", "fundCustodianPostalCode"),
        ("基金托管人法定代表人", "fundCustodianLegalRepresentative"),
        ("基金托管人存续期间", "fundCustodianDuration"),
        ("基金托管人组织形式", "fundCustodianOrganizationForm")
      ]),
      ModuleTable("协议依据与约定事项", [
        ("订立托管协议的依据", "custodyAgreementBasis")
      ]),
      ModuleTable("基金资产估值与收益分配", [
        ("基金资产估值对象", "fundAssetValuationObject"),
        ("基金收益分配方式", "fundIncomeDistributionMethod"),
        ("实施侧袋机制期间的收益分配", "sidePocketIncomeDistribution")
      ]),
      ModuleTable("基金费用", [
        ("基金的托管费", "fundCustodyFee"),
        ("基金的管理费", "fundManagementFee"),
        ("A类基金的销售服务费", "classAServiceFee"),
        ("C类基金的销售服务费", "classCServiceFee"),
        ("E类基金的销售服务费", "classEServiceFee"),
        ("不列入基金费用的项目", "excludedFeeItems")
      ])
  ]

  const ProspectusTable: seq<ModuleTable> := [
      ModuleTable("基金管理人信息", [
        ("基金管理人名称", "fundManagerName"),
        ("基金管理人办公地址", "fundManagerOfficeAddress"),
        ("基金管理人法定代表人", "fundManagerLegalRepresentative"),
        ("基金管理人联系人", "fundManagerContact"),
        ("基金管理人客服服务电话", "fundManagerCustomerServicePhone"),
        ("基金管理人传真", "fundManagerFax")
      ]),
      ModuleTable("基金托管人信息", [
        ("基金托管人名称", "fundCustodianName"),
        ("基金托管人办公地址", "fundCustodianOfficeAddress"),
        ("基金托管人法定代表人", "fundCustodianLegalRepresentative")
      ]),
      ModuleTable("基金募集与发售安排", [
        ("基金募集依据", "fundraisingBasis"),
        ("基金募集期限", "fundraisingPeriod"),
        ("基金发售时间", "offeringTime"),
        ("认购时间", "subscriptionTime"),
        ("基金发售面值", "offeringParValue"),
        ("申购开放日及开放时间", "purchaseOpenDate"),
        ("赎回开放日及开放时间", "redemptionOpenDate")
      ]),
      ModuleTable("基金运作与估值", [
        ("基金资产的估值日", "fundAssetValuationDate"),
        ("基金资产的估值对象", "fundAssetValuationObject")
      ]),
      ModuleTable("基金费用", [
        ("基金托管人的托管费", "custodianCustodyFee"),
        ("基金销售服务费", "fundSalesServiceFee"),
        ("申购费率", "subscriptionFeeRate"),
        ("赎回费率", "redemptionFeeRate")
      ])
  ]

  const ContractTable: seq<ModuleTable> := [
      ModuleTable("基金基本信息", [
        ("文档标题", "documentTitle"),
        ("基金名称", "fundName"),
        ("基金代码", "fundCode"),
        ("基金类别", "fundCategory"),
        ("运作方式", "operationMode"),
        ("投资目标", "investmentTarget"),
        ("投资范围", "investmentScope"),
        ("基金份额面值", "fundShareValue"),
        ("基金合同生效日", "contractEffectiveDate"),
        ("存续期", "duration"),
        ("锁定持有期", "lockupPeriod")
      ]),
      ModuleTable("基金份额的发售与认购", [
        ("募集申请核准文号", "fundraisingApprovalNumber"),
        ("募集开始日", "fundraisingStartDate"),
        ("募集结束日", "fundraisingEndDate"),
        ("最低募集份额总数", "minimumFundraisingShares"),
        ("最低募集金额", "minimumFundraisingAmount"),
        ("发售时间", "offeringTime"),
        ("发售方式", "offeringMethod"),
        ("发售对象", "offeringTarget"),
        ("认购费用", "subscriptionFee"),
        ("申购费用", "purchaseFee"),
        ("赎回费用", "redemptionFee")
      ]),
      ModuleTable("基金合同当事人", [
        ("基金管理人名称", "fundManagerName"),
        ("基金管理人法定代表人", "fundManagerLegalRepresentative"),
        ("基金托管人名称", "fundTrusteeName"),
        ("基金托管人法定代表人", "fundTrusteeLegalRepresentative"),
        ("登记机构", "registrationInstitution")
      ]),
      ModuleTable("基金运营与投资", [
        ("基金经理", "fundManager"),
        ("投资策略", "investmentStrategy"),
        ("投资比例限制", "investmentRatioLimits"),
        ("风险收益特征", "riskReturnCharacteristics")
      ]),
      ModuleTable("基金财产与估值", [
        ("基金财产构成", "fundAssetComposition"),
        ("基金资产估值方法", "fundAssetValuationMethod"),
        ("基金资产净值计算方法", "fundNetAssetValueCalculation"),
        ("估值日", "valuationDate"),
        ("公告频率", "announcementFrequency")
      ]),
      ModuleTable("基金收益与分配", [
        ("收益来源", "incomeSource"),
        ("分配原则", "distributionPrinciple"),
        ("分配频率", "distributionFrequency")
      ]),
      ModuleTable("基金费用与税收", [
        ("管理费率", "managementFeeRate"),
        ("托管费率", "custodyFeeRate"),
        ("销售服务费率", "salesServiceFeeRate"),
        ("其他费用", "otherFees"),
        ("税收说明", "taxExplanation")
      ])
  ]

  /** The conversion table of a backend tag; an unknown tag converts to `{}`. */
  function ConvertTable(apiType: string): seq<ModuleTable>
  {
    if apiType == "CUSTODY_AGREEMENT" then CustodyTable
    else if apiType == "PROSPECTUS" then ProspectusTable
    else if apiType == "FUND_CONTRACT" then ContractTable
    else []
  }

  /** One output module's object: each label mapped to `extractedData[key] || ''`. */
  function ConvertModule(data: Json, fields: seq<(string, string)>): seq<(string, Json)>
  {
    seq(|fields|, j requires 0 <= j < |fields| => (fields[j].0, Or(Get(data, fields[j].1), Str(""))))
  }

  function ConvertWith(data: Json, table: seq<ModuleTable>): seq<(string, Json)>
  {
    seq(|table|, i requires 0 <= i < |table| => (table[i].title, Obj(ConvertModule(data, table[i].fields))))
  }

  /**
   * `convertExtractedDataToFields(extractedData, documentType)`: `{}` for an
   * unmapped type; for a mapped type, reading a field of `null` or
   * `undefined` data throws.
   */
  function Convert(data: Json, documentType: string): (r: Res<Json>)
    ensures Mapping(documentType).None? ==> r == Ok(Obj([]))
    ensures Mapping(documentType).Some? ==> (r.TypeError? <==> Nullish(data))
    ensures r.Ok? ==> r.value.Obj?
  {
    var apiType := Mapping(documentType);
    if apiType.None? then Ok(Obj([]))
    else if Nullish(data) then TypeError
    else Ok(Obj(ConvertWith(data, ConvertTable(apiType.value))))
  }

  function Titles(table: seq<ModuleTable>): seq<string>
  {
    seq(|table|, i requires 0 <= i < |table| => table[i].title)
  }

  predicate DistinctKeys<T>(props: seq<(string, T)>)
  {
    forall i, j :: 0 <= i < j < |props| ==> props[i].0 != props[j].0
  }

  /** Titles are distinct, and so are the labels inside each module. */
  predicate WellFormed(table: seq<ModuleTable>)
  {
    (forall i, j :: 0 <= i < j < |table| ==> table[i].title != table[j].title)
    && forall i :: 0 <= i < |table| ==> DistinctKeys(table[i].fields)
  }

  /** With distinct property names, looking a property up gives its own value. */
  lemma {:induction false} LookupDistinct(props: seq<(string, Json)>, k: nat)
    requires DistinctKeys(props) && k < |props|
    ensures Lookup(props, props[k].0) == props[k].1
    decreases |props|
  {
    var n := |props|;
    if k < n - 1 {
      var p := props[..n - 1];
      assert p[k] == props[k];
      LookupDistinct(p, k);
    }
  }

  /** A property list whose values are all objects yields an object for any name it holds. */
  lemma {:induction false} LookupFindsObj(props: seq<(string, Json)>, key: string, k: nat)
    requires k < |props| && props[k].0 == key
    requires forall i :: 0 <= i < |props| ==> props[i].1.Obj?
    ensures Lookup(props, key).Obj?
    decreases |props|
  {
    var n := |props|;
    if props[n - 1].0 != key {
      var p := props[..n - 1];
      assert p[k] == props[k];
      LookupFindsObj(p, key, k);
    }
  }

  lemma CustodyTableWellFormed()
    ensures WellFormed(CustodyTable)
  {
    CustodyTitlesDistinct();
    forall i | 0 <= i < |CustodyTable|
      ensures DistinctKeys(CustodyTable[i].fields)
    {
      if i == 0 {
        CustodyLabelsDistinct0();
      } else if i == 1 {
        CustodyLabelsDistinct1();
      } else if i == 2 {
        CustodyLabelsDistinct2();
      } else if i == 3 {
        CustodyLabelsDistinct3();
      } else if i == 4 {
        CustodyLabelsDistinct4();
      }
    }
  }

  lemma CustodyTitlesDistinct()
    ensures forall i, j :: 0 <= i < j < |CustodyTable| ==> CustodyTable[i].title != CustodyTable[j].title
  {
  }

  lemma CustodyLabelsDistinct0()
    ensures DistinctKeys(CustodyTable[0].fields)
  {
  }

  lemma CustodyLabelsDistinct1()
    ensures DistinctKeys(CustodyTable[1].fields)
  {
  }

  lemma CustodyLabelsDistinct2()
    ensures DistinctKeys(CustodyTable[2].fields)
  {
  }

  lemma CustodyLabelsDistinct3()
    ensures DistinctKeys(CustodyTable[3].fields)
  {
  }

  lemma CustodyLabelsDistinct4()
    ensures DistinctKeys(CustodyTable[4].fields)
  {
  }

  lemma ProspectusTableWellFormed()
    ensures WellFormed(ProspectusTable)
  {
    ProspectusTitlesDistinct();
    forall i | 0 <= i < |ProspectusTable|
      ensures DistinctKeys(ProspectusTable[i].fields)
    {
      if i == 0 {
        ProspectusLabelsDistinct0();
      } else if i == 1 {
        ProspectusLabelsDistinct1();
      } else if i == 2 {
        ProspectusLabelsDistinct2();
      } else if i == 3 {
        ProspectusLabelsDistinct3();
      } else if i == 4 {
        ProspectusLabelsDistinct4();
      }
    }
  }

  lemma ProspectusTitlesDistinct()
    ensures forall i, j :: 0 <= i < j < |ProspectusTable| ==> ProspectusTable[i].title != ProspectusTable[j].title
  {
  }

  lemma ProspectusLabelsDistinct0()
    ensures DistinctKeys(ProspectusTable[0].fields)
  {
  }

  lemma ProspectusLabelsDistinct1()
    ensures DistinctKeys(ProspectusTable[1].fields)
  {
  }

  lemma ProspectusLabelsDistinct2()
    ensures DistinctKeys(ProspectusTable[2].fields)
  {
  }

  lemma ProspectusLabelsDistinct3()
    ensures DistinctKeys(ProspectusTable[3].fields)
  {
  }

  lemma ProspectusLabelsDistinct4()
    ensures DistinctKeys(ProspectusTable[4].fields)
  {
  }

  lemma ContractTableWellFormed()
    ensures WellFormed(ContractTable)
  {
    ContractTitlesDistinct();
    forall i | 0 <= i < |ContractTable|
      ensures DistinctKeys(ContractTable[i].fields)
    {
      if i == 0 {
        ContractLabelsDistinct0();
      } else if i == 1 {
        ContractLabelsDistinct1();
      } else if i == 2 {
        ContractLabelsDistinct2();
      } else if i == 3 {
        ContractLabelsDistinct3();
      } else if i == 4 {
        ContractLabelsDistinct4();
      } else if i == 5 {
        ContractLabelsDistinct5();
      } else if i == 6 {
        ContractLabelsDistinct6();
      }
    }
  }

  lemma ContractTitlesDistinct()
    ensures forall i, j :: 0 <= i < j < |ContractTable| ==> ContractTable[i].title != ContractTable[j].title
  {
  }

  lemma ContractLabelsDistinct0()
    ensures DistinctKeys(ContractTable[0].fields)
  {
  }

  lemma ContractLabelsDistinct1()
    ensures DistinctKeys(ContractTable[1].fields)
  {
  }

  lemma ContractLabelsDistinct2()
    ensures DistinctKeys(ContractTable[2].fields)
  {
  }

  lemma ContractLabelsDistinct3()
    ensures DistinctKeys(ContractTable[3].fields)
  {
  }

  lemma ContractLabelsDistinct4()
    ensures DistinctKeys(ContractTable[4].fields)
  {
  }

  lemma ContractLabelsDistinct5()
    ensures DistinctKeys(ContractTable[5].fields)
  {
  }

  lemma ContractLabelsDistinct6()
    ensures DistinctKeys(ContractTable[6].fields)
  {
  }

  lemma ConvertTableFacts(apiType: string)
    requires RequiredModules(apiType).Some?
    ensures WellFormed(ConvertTable(apiType))
    ensures Titles(ConvertTable(apiType)) == RequiredModules(apiType).value
  {
    CustodyTableWellFormed();
    ProspectusTableWellFormed();
    ContractTableWellFormed();
  }

  /**
   * Every output field holds the extracted value under its key, or `''`
   * when that value is absent or falsy.
   */
  lemma ConvertFieldValue(data: Json, documentType: string, i: nat, j: nat)
    requires Mapping(documentType).Some? && !Nullish(data)
    requires i < |ConvertTable(Mapping(documentType).value)|
    requires j < |ConvertTable(Mapping(documentType).value)[i].fields|
    ensures var t := ConvertTable(Mapping(documentType).value)[i];
      Get(Get(Convert(data, documentType).value, t.title), t.fields[j].0) == Or(Get(data, t.fields[j].1), Str(""))
    ensures var t := ConvertTable(Mapping(documentType).value)[i];
      !Truthy(Get(data, t.fields[j].1)) ==> Get(Get(Convert(data, documentType).value, t.title), t.fields[j].0) == Str("")
  {
    var apiType := Mapping(documentType).value;
    var table := ConvertTable(apiType);
    ConvertTableFacts(apiType);
    ConvertWithLookup(data, table, i, j);
    assert Convert(data, documentType).value == Obj(ConvertWith(data, table));
  }

  /** In a well-formed table, each converted field sits under its own module and label. */
  lemma ConvertWithLookup(data: Json, table: seq<ModuleTable>, i: nat, j: nat)
    requires WellFormed(table) && i < |table| && j < |table[i].fields|
    ensures Get(Get(Obj(ConvertWith(data, table)), table[i].title), table[i].fields[j].0) ==
              Or(Get(data, table[i].fields[j].1), Str(""))
  {
    var props := ConvertWith(data, table);
    LookupDistinct(props, i);
    var inner := ConvertModule(data, table[i].fields);
    LookupDistinct(inner, j);
  }

  /**
   * The conversion always emits every module the validation requires, so
   * converted data of a mapped type is valid for any input that converts.
   */
  lemma ConvertValidates(data: Json, documentType: string)
    requires Mapping(documentType).Some? && !Nullish(data)
    ensures ValidateFieldsData(Convert(data, documentType).value, Mapping(documentType).value) == Ok(Valid)
  {
    var apiType := Mapping(documentType).value;
    var table := ConvertTable(apiType);
    ConvertTableFacts(apiType);
    var props := ConvertWith(data, table);
    var modules := RequiredModules(apiType).value;
    forall i | 0 <= i < |modules|
      ensures Truthy(Get(Obj(props), modules[i]))
    {
      assert modules[i] == Titles(table)[i] == props[i].0;
      LookupDistinct(props, i);
    }
  }

  /** A field table's (label, key) pairs. */
  function Pairs(t: seq<FundFields.FieldDef>): seq<(string, string)>
  {
    seq(|t|, i requires 0 <= i < |t| => (t[i].caption, t[i].key))
  }

  /** The custody conversion reads exactly the custody field configuration, module by module. */
  lemma CustodyTableMatchesFieldConfig()
    ensures CustodyTable[0].fields == Pairs(FundFields.CustodyManager)
    ensures CustodyTable[1].fields == Pairs(FundFields.CustodyCustodian)
    ensures CustodyTable[2].fields == Pairs(FundFields.CustodyBasis)
    ensures CustodyTable[3].fields == Pairs(FundFields.CustodyValuation)
    ensures CustodyTable[4].fields == Pairs(FundFields.CustodyFees)
  {
  }

  /** The prospectus conversion reads exactly the prospectus field configuration, module by module. */
  lemma ProspectusTableMatchesFieldConfig()
    ensures ProspectusTable[0].fields == Pairs(FundFields.ProspectusManager)
    ensures ProspectusTable[1].fields == Pairs(FundFields.ProspectusCustodian)
    ensures ProspectusTable[2].fields == Pairs(FundFields.ProspectusOffering)
    ensures ProspectusTable[3].fields == Pairs(FundFields.ProspectusOperation)
    ensures ProspectusTable[4].fields == Pairs(FundFields.ProspectusFees)
  {
  }

  /** The contract conversion reads exactly the contract field configuration, module by module. */
  lemma ContractTableMatchesFieldConfig()
    ensures ContractTable[0].fields == Pairs(FundFields.FundBasicInfo)
    ensures ContractTable[1].fields == Pairs(FundFields.FundOffering)
    ensures ContractTable[2].fields == Pairs(FundFields.FundParties)
    ensures ContractTable[3].fields == Pairs(FundFields.FundOperation)
    ensures ContractTable[4].fields == Pairs(FundFields.FundAssets)
    ensures ContractTable[5].fields == Pairs(FundFields.FundDistribution)
    ensures ContractTable[6].fields == Pairs(FundFields.FundFees)
  {
  }

  // ---------------------------------------------------------------------
  // File name and export
  // ---------------------------------------------------------------------

  /** `typeLabels[tag] || '基金文档'`. */
  function TypeLabel(apiType: string): string
  {
    if apiType == "FUND_CONTRACT" then "基金合同"
    else if apiType == "CUSTODY_AGREEMENT" then "托管协议"
    else if apiType == "PROSPECTUS" then "招募说明书"
    else "基金文档"
  }

  const ReportSuffix := "_提取报告.pdf"

  /**
   * `generateDefaultFilename(tag, fundName)`: `<fund>_<label>_提取报告.pdf`,
   * or `<label>_提取报告.pdf` when the fund name is falsy.
   */
  function GenerateDefaultFilename(apiType: string, fundName: Json): (r: string)
    ensures EndsWith(r, TypeLabel(apiType) + ReportSuffix)
    ensures Truthy(fundName) ==> StartsWith(r, Display(fundName) + "_")
    ensures Truthy(fundName) ==> r == Display(fundName) + "_" + TypeLabel(apiType) + ReportSuffix
    ensures !Truthy(fundName) ==> r == TypeLabel(apiType) + ReportSuffix
  {
    var typeLabel := TypeLabel(apiType);
    var baseName := if Truthy(fundName) then Display(fundName) + "_" + typeLabel else typeLabel;
    var r := baseName + ReportSuffix;
    assert Truthy(fundName) ==> r == (Display(fundName) + "_") + (typeLabel + ReportSuffix);
    assert r[|r| - |typeLabel + ReportSuffix|..] == typeLabel + ReportSuffix;
    r
  }

  /** What the backend call `exportFundFieldsPdfApi` did: returned a response, or rejected with an error whose `message` is given. */
  datatype ApiReply = Returned(response: Json) | Rejected(message: Json)

  /** Why an export failed: an error with a message, or a TypeError raised by the conversion. */
  datatype Failure = Thrown(message: Json) | EngineTypeError

  datatype ExportResult = Exported(message: Json, data: Json) | ExportFailed(error: Failure)

  /** The message of an error thrown with `new Error(text)`. */
  function ErrorOf(text: string): Failure
  {
    Thrown(Str(text))
  }

  /** The handling of the backend's answer: only `success === true` counts as an export. */
  function Finish(reply: ApiReply): (r: ExportResult)
    ensures r.Exported? <==> reply.Returned? && Get(reply.response, "success") == Bool(true)
    ensures reply.Rejected? ==> r == ExportFailed(Thrown(reply.message))
  {
    match reply
    case Rejected(message) => ExportFailed(Thrown(message))
    case Returned(response) =>
      if Truthy(response) && Get(response, "success") == Bool(true) then
        Exported(Or(Get(response, "message"), Str("PDF导出成功")), Get(response, "data"))
      else
        ExportFailed(Thrown(Str(Display(Or(Get(response, "message"), Str("PDF导出失败"))))))
  }

  /** The file name the export sends: the caller's, or the default built from the fund or manager name. */
  function ExportFilename(data: Json, apiType: string, customFilename: Json): Json
  {
    Or(customFilename, Str(GenerateDefaultFilename(apiType, Or(Get(data, "fundName"), Get(data, "fundManagerName")))))
  }

  /**
   * `exportFundFieldsToPDF(extractedData, documentType, customFilename)`.
   * The backend call is the parameter `api`, given the converted data, the
   * tag and the file name. Every failure is caught and returned.
   */
  function ExportFundFieldsToPdf(items: map<string, Json>, data: Json, documentType: string, customFilename: Json,
                                 api: (Json, string, Json) -> ApiReply): (r: ExportResult)
    ensures var user := Auth.GetCurrentUser(items);
      !Truthy(Or(ReadFrom(items, "token"), Get(user, "token"))) ==> r == ExportFailed(ErrorOf("用户未登录，无法导出PDF"))
    ensures Truthy(Or(ReadFrom(items, "token"), Get(Auth.GetCurrentUser(items), "token"))) ==>
      && (Mapping(documentType).None? ==> r == ExportFailed(ErrorOf("不支持的文档类型: " + documentType)))
      && (Mapping(documentType).Some? && Nullish(data) ==> r == ExportFailed(EngineTypeError))
    ensures r.Exported? ==>
      && Truthy(Or(ReadFrom(items, "token"), Get(Auth.GetCurrentUser(items), "token")))
      && Mapping(documentType).Some? && !Nullish(data)
      && r == Finish(api(Convert(data, documentType).value, Mapping(documentType).value,
                         ExportFilename(data, Mapping(documentType).value, customFilename)))
  {
    var user := Auth.GetCurrentUser(items);
    var token := Or(ReadFrom(items, "token"), Get(user, "token"));
    if !Truthy(token) then ExportFailed(ErrorOf("用户未登录，无法导出PDF"))
    else
      var apiType := Mapping(documentType);
      if apiType.None? then ExportFailed(ErrorOf("不支持的文档类型: " + documentType))
      else
        match Convert(data, documentType)
        case TypeError => ExportFailed(EngineTypeError)
        case Ok(fieldsData) =>
          match ValidateFieldsData(fieldsData, apiType.value)
          case TypeError => ExportFailed(EngineTypeError)
          case Ok(Invalid(e)) => ExportFailed(ErrorOf("数据验证失败: " + e))
          case Ok(Valid) =>
            Finish(api(fieldsData, apiType.value, ExportFilename(data, apiType.value, customFilename)))
  }

  /**
   * Once the token and the type are accepted, the outcome is the backend's:
   * conversion output always validates, so the `数据验证失败` branch is
   * unreachable.
   */
  lemma ExportOutcomeIsBackends(items: map<string, Json>, data: Json, documentType: string, customFilename: Json,
                                api: (Json, string, Json) -> ApiReply)
    requires Truthy(Or(ReadFrom(items, "token"), Get(Auth.GetCurrentUser(items), "token")))
    requires Mapping(documentType).Some? && !Nullish(data)
    ensures ExportFundFieldsToPdf(items, data, documentType, customFilename, api) ==
            Finish(api(Convert(data, documentType).value, Mapping(documentType).value,
                       ExportFilename(data, Mapping(documentType).value, customFilename)))
  {
    ConvertValidates(data, documentType);
  }

  /** `getExampleFieldsData(documentType)`: sample data for the custody agreement, `{}` for every other type. */
  function GetExampleFieldsData(documentType: string): (r: Json)
    ensures r.Obj?
    ensures r.props != [] <==> documentType == "custody_agreement"
  {
    if Mapping(documentType) == Some("CUSTODY_AGREEMENT") then
    Obj([
      ("基金管理人信息", Obj([
        ("基金管理人名称", Str("示例基金管理有限公司")),
        ("基金管理人办公地址", Str("北京市西城区示例大街1号")),
        ("基金管理人邮政编码", Str("100000")),
        ("基金管理人法定代表人", Str("张三")),
        ("基金管理人存续期间", Str("持续经营")),
        ("基金管理人组织形式", Str("有限责任公司"))
      ])),
      ("基金托管人信息", Obj([
        ("基金托管人名称", Str("示例银行股份有限公司")),
        ("基金托管人办公地址", Str("北京市西城区示例路55号")),
        ("基金托管人邮政编码", Str("100001")),
        ("基金托管人法定代表人", Str("李四")),
        ("基金托管人存续期间", Str("持续经营")),
        ("基金托管人组织形式", Str("股份有限公司"))
      ])),
      ("协议依据与约定事项", Obj([
        ("订立托管协议的依据", Str("依据《中华人民共和国证券投资基金法》等法律法规订立"))
      ])),
      ("基金资产估值与收益分配", Obj([
        ("基金资产估值对象", Str("基金投资的各类证券及票据价值、银行存款本息等")),
        ("基金收益分配方式", Str("现金分红为主，可选择红利再投资")),
        ("实施侧袋机制期间的收益分配", Str("主袋份额的收益分配不受侧袋机制影响"))
      ])),
      ("基金费用", Obj([
        ("基金的托管费", Str("年费率0.25%")),
        ("基金的管理费", Str("年费率1.50%")),
        ("A类基金的销售服务费", Str("不收取销售服务费")),
        ("C类基金的销售服务费", Str("年费率0.40%")),
        ("E类基金的销售服务费", Str("年费率0.20%")),
        ("不列入基金费用的项目", Str("基金管理人和基金托管人因未履行或未完全履行义务导致的费用支出"))
      ]))
    ])
    else Obj([])
  }

  /** The custody sample passes the custody validation. */
  lemma ExampleFieldsValidate()
    ensures ValidateFieldsData(GetExampleFieldsData("custody_agreement"), "CUSTODY_AGREEMENT") == Ok(Valid)
  {
    var props := GetExampleFieldsData("custody_agreement").props;
    var modules := RequiredModules("CUSTODY_AGREEMENT").value;
    forall i | 0 <= i < |modules|
      ensures Truthy(Get(Obj(props), modules[i]))
    {
      assert props[i].0 == modules[i];
      LookupFindsObj(props, modules[i], i);
    }
  }
}
