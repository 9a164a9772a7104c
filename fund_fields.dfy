/**
 * The extraction field catalogue (src/config/fund-fields.js): for each of
 * the three fund document types, its modules' field tables, the flattened
 * field list, and the lookups by document type and by module.
 */
module FundFields {
  import opened Wrappers

  /** One extracted field: its result key, its display label and the module it belongs to. */
  datatype FieldDef = FieldDef(key: string, caption: string, moduleName: string)

  // Fund contract (基金合同): seven modules.
  const FundBasicInfo: seq<FieldDef> := [
    FieldDef("documentTitle", "文档标题", "basic"),
    FieldDef("fundName", "基金名称", "basic"),
    FieldDef("fundCode", "基金代码", "basic"),
    FieldDef("fundCategory", "基金类别", "basic"),
    FieldDef("operationMode", "运作方式", "basic"),
    FieldDef("investmentTarget", "投资目标", "basic"),
    FieldDef("investmentScope", "投资范围", "basic"),
    FieldDef("fundShareValue", "基金份额面值", "basic"),
    FieldDef("contractEffectiveDate", "基金合同生效日", "basic"),
    FieldDef("duration", "存续期", "basic"),
    FieldDef("lockupPeriod", "锁定持有期", "basic")
  ]

  const FundOffering: seq<FieldDef> := [
    FieldDef("fundraisingApprovalNumber", "募集申请核准文号", "offering"),
    FieldDef("fundraisingStartDate", "募集开始日", "offering"),
    FieldDef("fundraisingEndDate", "募集结束日", "offering"),
    FieldDef("minimumFundraisingShares", "最低募集份额总数", "offering"),
    FieldDef("minimumFundraisingAmount", "最低募集金额", "offering"),
    FieldDef("offeringTime", "发售时间", "offering"),
    FieldDef("offeringMethod", "发售方式", "offering"),
    FieldDef("offeringTarget", "发售对象", "offering"),
    FieldDef("subscriptionFee", "认购费用", "offering"),
    FieldDef("purchaseFee", "申购费用", "offering"),
    FieldDef("redemptionFee", "赎回费用", "offering")
  ]

  const FundParties: seq<FieldDef> := [
    FieldDef("fundManagerName", "基金管理人名称", "parties"),
    FieldDef("fundManagerLegalRepresentative", "基金管理人法定代表人", "parties"),
    FieldDef("fundTrusteeName", "基金托管人名称", "parties"),
    FieldDef("fundTrusteeLegalRepresentative", "基金托管人法定代表人", "parties"),
    FieldDef("registrationInstitution", "登记机构", "parties")
  ]

  const FundOperation: seq<FieldDef> := [
    FieldDef("fundManager", "基金经理", "operation"),
    FieldDef("investmentStrategy", "投资策略", "operation"),
    FieldDef("investmentRatioLimits", "投资比例限制", "operation"),
    FieldDef("riskReturnCharacteristics", "风险收益特征", "operation")
  ]

  const FundAssets: seq<FieldDef> := [
    FieldDef("fundAssetComposition", "基金财产构成", "assets"),
    FieldDef("fundAssetValuationMethod", "基金资产估值方法", "assets"),
    FieldDef("fundNetAssetValueCalculation", "基金资产净值计算方法", "assets"),
    FieldDef("valuationDate", "估值日", "assets"),
    FieldDef("announcementFrequency", "公告频率", "assets")
  ]

  const FundDistribution: seq<FieldDef> := [
    FieldDef("incomeSource", "收益来源", "distribution"),
    FieldDef("distributionPrinciple", "分配原则", "distribution"),
    FieldDef("distributionFrequency", "分配频率", "distribution")
  ]

  const FundFees: seq<FieldDef> := [
    FieldDef("managementFeeRate", "管理费率", "fees"),
    FieldDef("custodyFeeRate", "托管费率", "fees"),
    FieldDef("salesServiceFeeRate", "销售服务费率", "fees"),
    FieldDef("otherFees", "其他费用", "fees"),
    FieldDef("taxExplanation", "税收说明", "fees")
  ]

  // Custody agreement (托管协议): five modules.
  const CustodyManager: seq<FieldDef> := [
    FieldDef("fundManagerName", "基金管理人名称", "manager"),
    FieldDef("fundManagerOfficeAddress", "基金管理人办公地址", "manager"),
    FieldDef("fundManagerPostalCode", "基金管理人邮政编码", "manager"),
    FieldDef("fundManagerLegalRepresentative", "基金管理人法定代表人", "manager"),
    FieldDef("fundManagerDuration", "基金管理人存续期间", "manager"),
    FieldDef("fundManagerOrganizationForm", "基金管理人组织形式", "manager")
  ]

  const CustodyCustodian: seq<FieldDef> := [
    FieldDef("fundCustodianName", "基金托管人名称", "custodian"),
    FieldDef("fundCustodianOfficeAddress", "基金托管人办公地址", "custodian"),
    FieldDef("fundCustodianPostalCode", "基金托管人邮政编码", "custodian"),
    FieldDef("fundCustodianLegalRepresentative", "基金托管人法定代表人", "custodian"),
    FieldDef("fundCustodianDuration", "基金托管人存续期间", "custodian"),
    FieldDef("fundCustodianOrganizationForm", "基金托管人组织形式", "custodian")
  ]

  const CustodyBasis: seq<FieldDef> := [
    FieldDef("custodyAgreementBasis", "订立托管协议的依据", "basis")
  ]

  const CustodyValuation: seq<FieldDef> := [
    FieldDef("fundAssetValuationObject", "基金资产估值对象", "valuation"),
    FieldDef("fundIncomeDistributionMethod", "基金收益分配方式", "valuation"),
    FieldDef("sidePocketIncomeDistribution", "实施侧袋机制期间的收益分配", "valuation")
  ]

  const CustodyFees: seq<FieldDef> := [
    FieldDef("fundCustodyFee", "基金的托管费", "fees"),
    FieldDef("fundManagementFee", "基金的管理费", "fees"),
    FieldDef("classAServiceFee", "A类基金的销售服务费", "fees"),
    FieldDef("classCServiceFee", "C类基金的销售服务费", "fees"),
    FieldDef("classEServiceFee", "E类基金的销售服务费", "fees"),
    FieldDef("excludedFeeItems", "不列入基金费用的项目", "fees")
  ]

  // Prospectus (招募说明书): five modules.
  const ProspectusManager: seq<FieldDef> := [
    FieldDef("fundManagerName", "基金管理人名称", "manager"),
    FieldDef("fundManagerOfficeAddress", "基金管理人办公地址", "manager"),
    FieldDef("fundManagerLegalRepresentative", "基金管理人法定代表人", "manager"),
    FieldDef("fundManagerContact", "基金管理人联系人", "manager"),
    FieldDef("fundManagerCustomerServicePhone", "基金管理人客服服务电话", "manager"),
    FieldDef("fundManagerFax", "基金管理人传真", "manager")
  ]

  const ProspectusCustodian: seq<FieldDef> := [
    FieldDef("fundCustodianName", "基金托管人名称", "custodian"),
    FieldDef("fundCustodianOfficeAddress", "基金托管人办公地址", "custodian"),
    FieldDef("fundCustodianLegalRepresentative", "基金托管人法定代表人", "custodian")
  ]

  const ProspectusOffering: seq<FieldDef> := [
    FieldDef("fundraisingBasis", "基金募集依据", "offering"),
    FieldDef("fundraisingPeriod", "基金募集期限", "offering"),
    FieldDef("offeringTime", "基金发售时间", "offering"),
    FieldDef("subscriptionTime", "认购时间", "offering"),
    FieldDef("offeringParValue", "基金发售面值", "offering"),
    FieldDef("purchaseOpenDate", "申购开放日及开放时间", "offering"),
    FieldDef("redemptionOpenDate", "赎回开放日及开放时间", "offering")
  ]

  const ProspectusOperation: seq<FieldDef> := [
    FieldDef("fundAssetValuationDate", "基金资产的估值日", "operation"),
    FieldDef("fundAssetValuationObject", "基金资产的估值对象", "operation")
  ]

  const ProspectusFees: seq<FieldDef> := [
    FieldDef("custodianCustodyFee", "基金托管人的托管费", "fees"),
    FieldDef("fundSalesServiceFee", "基金销售服务费", "fees"),
    FieldDef("subscriptionFeeRate", "申购费率", "fees"),
    FieldDef("redemptionFeeRate", "赎回费率", "fees")
  ]

  /** Every field of `t` belongs to module `m`. */
  predicate Uniform(t: seq<FieldDef>, m: string)
  {
    forall f :: f in t ==> f.moduleName == m
  }

  /** `getAllContractFields()`: the seven contract modules in declaration order. */
  function AllContractFields(): (r: seq<FieldDef>)
    ensures |r| == 44
  {
    FundBasicInfo + FundOffering + FundParties + FundOperation + FundAssets + FundDistribution + FundFees
  }

  /** `getAllCustodyFields()`: the five custody modules in declaration order. */
  function AllCustodyFields(): (r: seq<FieldDef>)
    ensures |r| == 22
  {
    CustodyManager + CustodyCustodian + CustodyBasis + CustodyValuation + CustodyFees
  }

  /** `getAllProspectusFields()`: the five prospectus modules in declaration order. */
  function AllProspectusFields(): (r: seq<FieldDef>)
    ensures |r| == 22
  {
    ProspectusManager + ProspectusCustodian + ProspectusOffering + ProspectusOperation + ProspectusFees
  }

  datatype DocTypeConfig = DocTypeConfig(key: string, caption: string, fields: seq<FieldDef>, description: string)

  /** `getDocumentTypes()`: the values of `DOCUMENT_TYPES` in declaration order. */
  function DocumentTypes(): (r: seq<DocTypeConfig>)
    ensures |r| == 3
    ensures r[0].key == "fund_contract" && r[0].caption == "基金合同" && r[0].fields == AllContractFields()
    ensures r[1].key == "custody_agreement" && r[1].caption == "托管协议" && r[1].fields == AllCustodyFields()
    ensures r[2].key == "prospectus" && r[2].caption == "招募说明书" && r[2].fields == AllProspectusFields()
  {
    [ DocTypeConfig("fund_contract", "基金合同", AllContractFields(), "基金合同相关文档"),
      DocTypeConfig("custody_agreement", "托管协议", AllCustodyFields(), "基金托管协议文档"),
      DocTypeConfig("prospectus", "招募说明书", AllProspectusFields(), "基金招募说明书文档") ]
  }

  /** `configs.find(type => type.key === key)`: the first config with that key. */
  function FindByKey(configs: seq<DocTypeConfig>, key: string): (r: Option<DocTypeConfig>)
    ensures r.None? <==> forall i :: 0 <= i < |configs| ==> configs[i].key != key
    ensures r.Some? ==> exists i :: 0 <= i < |configs| && configs[i] == r.value && r.value.key == key &&
                          forall j :: 0 <= j < i ==> configs[j].key != key
  {
    if |configs| == 0 then None
    else if configs[0].key == key then Some(configs[0])
    else
      var rest := FindByKey(configs[1..], key);
      assert forall i :: 1 <= i < |configs| ==> configs[i] == configs[1..][i - 1];
      rest
  }

  /** `getFieldsByDocumentType(t)`: the fields of the config whose key is `t`, `[]` for an unknown key. */
  function GetFieldsByDocumentType(documentType: string): (r: seq<FieldDef>)
    ensures documentType == "fund_contract" ==> r == AllContractFields()
    ensures documentType == "custody_agreement" ==> r == AllCustodyFields()
    ensures documentType == "prospectus" ==> r == AllProspectusFields()
    ensures documentType !in {"fund_contract", "custody_agreement", "prospectus"} ==> r == []
  {
    var found := FindByKey(DocumentTypes(), documentType);
    if found.Some? then found.value.fields else []
  }

  /** `a` is `b` with some elements left out, the rest kept in order. */
  predicate IsSubsequence(a: seq<FieldDef>, b: seq<FieldDef>)
    decreases |b|
  {
    if |a| == 0 then true
    else if |b| == 0 then false
    else if a[0] == b[0] then IsSubsequence(a[1..], b[1..])
    else IsSubsequence(a, b[1..])
  }

  /** `fields.filter(field => field.module === m)`. */
  function FilterModule(fields: seq<FieldDef>, m: string): (r: seq<FieldDef>)
    ensures Uniform(r, m)
    ensures IsSubsequence(r, fields)
    ensures forall f :: f in fields && f.moduleName == m ==> f in r
  {
    if |fields| == 0 then []
    else
      var rest := FilterModule(fields[1..], m);
      assert forall f :: f in fields ==> f == fields[0] || f in fields[1..];
      if fields[0].moduleName == m then [fields[0]] + rest else rest
  }

  /** `getFieldsByModule(t, m)`. */
  function GetFieldsByModule(documentType: string, m: string): (r: seq<FieldDef>)
    ensures Uniform(r, m)
    ensures IsSubsequence(r, GetFieldsByDocumentType(documentType))
    ensures forall f :: f in GetFieldsByDocumentType(documentType) && f.moduleName == m ==> f in r
  {
    FilterModule(GetFieldsByDocumentType(documentType), m)
  }

  /** An unknown document type has no fields in any module. */
  lemma UnknownTypeHasNoModuleFields(documentType: string, m: string)
    requires documentType !in {"fund_contract", "custody_agreement", "prospectus"}
    ensures GetFieldsByModule(documentType, m) == []
  {
  }

  /** Filtering distributes over concatenation. */
  lemma {:induction false} FilterConcat(a: seq<FieldDef>, b: seq<FieldDef>, m: string)
    ensures FilterModule(a + b, m) == FilterModule(a, m) + FilterModule(b, m)
    decreases |a|
  {
    if |a| == 0 {
      assert a + b == b;
    } else {
      assert (a + b)[0] == a[0];
      assert (a + b)[1..] == a[1..] + b;
      FilterConcat(a[1..], b, m);
    }
  }

  /** A table whose fields all belong to module `x` filters to itself for `x` and to nothing otherwise. */
  lemma {:induction false} FilterUniform(t: seq<FieldDef>, x: string, m: string)
    requires Uniform(t, x)
    ensures FilterModule(t, m) == if x == m then t else []
    decreases |t|
  {
    if |t| > 0 {
      assert t[0] in t;
      assert forall f :: f in t[1..] ==> f in t;
      FilterUniform(t[1..], x, m);
      assert t == [t[0]] + t[1..];
    }
  }

  function Pick(t: seq<FieldDef>, x: string, m: string): seq<FieldDef>
  {
    if x == m then t else []
  }

  /** Each table's fields carry the table's module name. */
  lemma ContractTablesUniform()
    ensures Uniform(FundBasicInfo, "basic") && Uniform(FundOffering, "offering") && Uniform(FundParties, "parties")
    ensures Uniform(FundOperation, "operation") && Uniform(FundAssets, "assets")
    ensures Uniform(FundDistribution, "distribution") && Uniform(FundFees, "fees")
  {
    FundBasicInfoUniform();
    FundOfferingUniform();
    FundPartiesUniform();
    FundOperationUniform();
    FundAssetsUniform();
    FundDistributionUniform();
    FundFeesUniform();
  }

  lemma FundBasicInfoUniform()
    ensures Uniform(FundBasicInfo, "basic")
  {
  }

  lemma FundOfferingUniform()
    ensures Uniform(FundOffering, "offering")
  {
  }

  lemma FundPartiesUniform()
    ensures Uniform(FundParties, "parties")
  {
  }

  lemma FundOperationUniform()
    ensures Uniform(FundOperation, "operation")
  {
  }

  lemma FundAssetsUniform()
    ensures Uniform(FundAssets, "assets")
  {
  }

  lemma FundDistributionUniform()
    ensures Uniform(FundDistribution, "distribution")
  {
  }

  lemma FundFeesUniform()
    ensures Uniform(FundFees, "fees")
  {
  }

  lemma CustodyTablesUniform()
    ensures Uniform(CustodyManager, "manager") && Uniform(CustodyCustodian, "custodian") && Uniform(CustodyBasis, "basis")
    ensures Uniform(CustodyValuation, "valuation") && Uniform(CustodyFees, "fees")
  {
    CustodyManagerUniform();
    CustodyCustodianUniform();
    CustodyBasisUniform();
    CustodyValuationUniform();
    CustodyFeesUniform();
  }

  lemma CustodyManagerUniform()
    ensures Uniform(CustodyManager, "manager")
  {
  }

  lemma CustodyCustodianUniform()
    ensures Uniform(CustodyCustodian, "custodian")
  {
  }

  lemma CustodyBasisUniform()
    ensures Uniform(CustodyBasis, "basis")
  {
  }

  lemma CustodyValuationUniform()
    ensures Uniform(CustodyValuation, "valuation")
  {
  }

  lemma CustodyFeesUniform()
    ensures Uniform(CustodyFees, "fees")
  {
  }

  lemma ProspectusTablesUniform()
    ensures Uniform(ProspectusManager, "manager") && Uniform(ProspectusCustodian, "custodian")
    ensures Uniform(ProspectusOffering, "offering") && Uniform(ProspectusOperation, "operation")
    ensures Uniform(ProspectusFees, "fees")
  {
    ProspectusManagerUniform();
    ProspectusCustodianUniform();
    ProspectusOfferingUniform();
    ProspectusOperationUniform();
    ProspectusFeesUniform();
  }

  lemma ProspectusManagerUniform()
    ensures Uniform(ProspectusManager, "manager")
  {
  }

  lemma ProspectusCustodianUniform()
    ensures Uniform(ProspectusCustodian, "custodian")
  {
  }

  lemma ProspectusOfferingUniform()
    ensures Uniform(ProspectusOffering, "offering")
  {
  }

  lemma ProspectusOperationUniform()
    ensures Uniform(ProspectusOperation, "operation")
  {
  }

  lemma ProspectusFeesUniform()
    ensures Uniform(ProspectusFees, "fees")
  {
  }

  /** Five uniform tables, concatenated and filtered, give back the table of the module asked for. */
  lemma {:induction false} FilterFive(t1: seq<FieldDef>, x1: string, t2: seq<FieldDef>, x2: string,
                                      t3: seq<FieldDef>, x3: string, t4: seq<FieldDef>, x4: string,
                                      t5: seq<FieldDef>, x5: string, m: string)
    requires Uniform(t1, x1) && Uniform(t2, x2) && Uniform(t3, x3) && Uniform(t4, x4) && Uniform(t5, x5)
    ensures FilterModule(t1 + t2 + t3 + t4 + t5, m) ==
      Pick(t1, x1, m) + Pick(t2, x2, m) + Pick(t3, x3, m) + Pick(t4, x4, m) + Pick(t5, x5, m)
  {
    FilterUniform(t1, x1, m);
    FilterUniform(t2, x2, m);
    FilterUniform(t3, x3, m);
    FilterUniform(t4, x4, m);
    FilterUniform(t5, x5, m);
    FilterConcat(t1, t2, m);
    FilterConcat(t1 + t2, t3, m);
    FilterConcat(t1 + t2 + t3, t4, m);
    FilterConcat(t1 + t2 + t3 + t4, t5, m);
  }

  /** The contract fields of a module are exactly that module's table. */
  lemma ContractByModule(m: string)
    ensures GetFieldsByModule("fund_contract", m) ==
      Pick(FundBasicInfo, "basic", m) + Pick(FundOffering, "offering", m) + Pick(FundParties, "parties", m)
      + Pick(FundOperation, "operation", m) + Pick(FundAssets, "assets", m)
      + Pick(FundDistribution, "distribution", m) + Pick(FundFees, "fees", m)
  {
    ContractTablesUniform();
    FilterFive(FundBasicInfo, "basic", FundOffering, "offering", FundParties, "parties",
               FundOperation, "operation", FundAssets, "assets", m);
    var head := FundBasicInfo + FundOffering + FundParties + FundOperation + FundAssets;
    FilterUniform(FundDistribution, "distribution", m);
    FilterUniform(FundFees, "fees", m);
    FilterConcat(head, FundDistribution, m);
    FilterConcat(head + FundDistribution, FundFees, m);
  }

  /** The custody-agreement fields of a module are exactly that module's table. */
  lemma CustodyByModule(m: string)
    ensures GetFieldsByModule("custody_agreement", m) ==
      Pick(CustodyManager, "manager", m) + Pick(CustodyCustodian, "custodian", m) + Pick(CustodyBasis, "basis", m)
      + Pick(CustodyValuation, "valuation", m) + Pick(CustodyFees, "fees", m)
  {
    CustodyTablesUniform();
    FilterFive(CustodyManager, "manager", CustodyCustodian, "custodian", CustodyBasis, "basis",
               CustodyValuation, "valuation", CustodyFees, "fees", m);
  }

  /** The prospectus fields of a module are exactly that module's table. */
  lemma ProspectusByModule(m: string)
    ensures GetFieldsByModule("prospectus", m) ==
      Pick(ProspectusManager, "manager", m) + Pick(ProspectusCustodian, "custodian", m)
      + Pick(ProspectusOffering, "offering", m) + Pick(ProspectusOperation, "operation", m)
      + Pick(ProspectusFees, "fees", m)
  {
    ProspectusTablesUniform();
    FilterFive(ProspectusManager, "manager", ProspectusCustodian, "custodian", ProspectusOffering, "offering",
               ProspectusOperation, "operation", ProspectusFees, "fees", m);
  }
}
