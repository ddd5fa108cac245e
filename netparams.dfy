/** The derivation rules of the network parameters (src/netParams.py): how
    the configured gains are defaulted, how the potassium conductances of the
    loaded cell rules are scaled in place, and the I->all connection rules,
    pulse windows and subcellular target ranges the script builds. */
module NetParams {
  import opened Results
  import Text

  // ---------------------------------------------------------------------
  // Constants of the network

  /** Normalised layer boundaries (cortical depth fractions). */
  const Layer: map<string, (real, real)> := map[
    "1" := (0.0, 0.1), "2" := (0.1, 0.29), "4" := (0.29, 0.37), "5A" := (0.37, 0.47),
    "24" := (0.1, 0.37), "5B" := (0.47, 0.8), "6" := (0.8, 1.0),
    "longTPO" := (2.0, 2.1), "longTVL" := (2.1, 2.2), "longS1" := (2.2, 2.3), "longS2" := (2.3, 2.4),
    "longcM1" := (2.4, 2.5), "longM2" := (2.5, 2.6), "longOC" := (2.6, 2.7)]

  const CellModels: seq<string> := ["HH_simple", "HH_reduced", "HH_full"]

  /** The local populations the network defines, in definition order. */
  const LocalPops: seq<string> := ["IT2", "SOM2", "PV2", "IT4", "IT5A", "SOM5A", "PV5A",
    "IT5B", "PT5B", "SOM5B", "PV5B", "IT6", "CT6", "SOM6", "PV6"]

  const ESynMech: seq<string> := ["AMPA", "NMDA"]
  const SOMESynMech: seq<string> := ["GABAASlow", "GABAB"]
  const SOMISynMech: seq<string> := ["GABAASlow"]
  const PVSynMech: seq<string> := ["GABAA"]

  // ---------------------------------------------------------------------
  // Gains

  /** A gain setting of cfg: Python `None` or a number. */
  datatype Gain = NoGain | Num(value: real)

  /** Python truthiness of a gain: `None` and `0` are both false. */
  predicate Truthy(g: Gain) {
    g.Num? && g.value != 0.0
  }

  /** A combined gain with the two gains it stands for (EI with EPV/ESOM,
      IE with PVE/SOME). */
  datatype PairGains = PairGains(combined: Gain, first: Gain, second: Gain)

  /** `if combined: first = second = combined` / `else: combined = (first + second) / 2`.
      `None` is the TypeError raised when an unset gain enters the mean;
      nothing has been assigned by then. */
  function ResolvePair(g: PairGains): (r: Option<PairGains>)
    ensures r.Some? <==> Truthy(g.combined) || (g.first.Num? && g.second.Num?)
    ensures r.Some? ==> r.value.combined.Num? && r.value.first.Num? && r.value.second.Num?
    ensures r.Some? ==> r.value.combined.value == (r.value.first.value + r.value.second.value) / 2.0
    ensures Truthy(g.combined) ==> r == Some(PairGains(g.combined, g.combined, g.combined))
    ensures !Truthy(g.combined) && r.Some? ==> r.value.first == g.first && r.value.second == g.second
  {
    if Truthy(g.combined) then Some(PairGains(g.combined, g.combined, g.combined))
    else if g.first.Num? && g.second.Num? then
      Some(g.(combined := Num((g.first.value + g.second.value) / 2.0)))
    else None
  }

  /** A combined gain of 0 is treated exactly as an unset one. */
  lemma ZeroPairGainIsUnset(first: Gain, second: Gain)
    ensures ResolvePair(PairGains(Num(0.0), first, second)).Some? == ResolvePair(PairGains(NoGain, first, second)).Some?
    ensures ResolvePair(PairGains(Num(0.0), first, second)).Some? ==>
      ResolvePair(PairGains(Num(0.0), first, second)) == ResolvePair(PairGains(NoGain, first, second))
  {
  }

  /** The I->I gain with the four gains it stands for. */
  datatype QuadGains = QuadGains(combined: Gain, pvSom: Gain, somPv: Gain, somSom: Gain, pvPv: Gain)

  predicate QuadSet(g: QuadGains) {
    g.combined.Num? && g.pvSom.Num? && g.somPv.Num? && g.somSom.Num? && g.pvPv.Num?
  }

  /** `if IIGain:` overwrite the four I->I gains, `else:` IIGain becomes their mean. */
  function ResolveQuad(g: QuadGains): (r: Option<QuadGains>)
    ensures r.Some? <==> Truthy(g.combined) || (g.pvSom.Num? && g.somPv.Num? && g.somSom.Num? && g.pvPv.Num?)
    ensures r.Some? ==> QuadSet(r.value)
    ensures r.Some? ==>
      r.value.combined.value == (r.value.pvSom.value + r.value.somPv.value + r.value.somSom.value + r.value.pvPv.value) / 4.0
    ensures Truthy(g.combined) ==> r == Some(QuadGains(g.combined, g.combined, g.combined, g.combined, g.combined))
    ensures !Truthy(g.combined) && r.Some? ==> r.value.(combined := g.combined) == g
  {
    if Truthy(g.combined) then Some(QuadGains(g.combined, g.combined, g.combined, g.combined, g.combined))
    else if g.pvSom.Num? && g.somPv.Num? && g.somSom.Num? && g.pvPv.Num? then
      Some(g.(combined := Num((g.pvSom.value + g.somPv.value + g.somSom.value + g.pvPv.value) / 4.0)))
    else None
  }

  // ---------------------------------------------------------------------
  // The settings object

  /** The settings the I->all rules read, once every gain is a number. */
  datatype IConfig = IConfig(
    IEweights: seq<real>, IIweights: seq<real>,
    PVEGain: real, SOMEGain: real,
    PVPVGain: real, SOMPVGain: real, PVSOMGain: real, SOMSOMGain: real,
    IPTGain: real, IFullGain: real,
    synsperconn: map<string, real>, synWeightFractionSOME: seq<real>,
    IEdisynapticBias: Option<real>)

  /** Every cell model has a non-zero synapse count (indexed, then divided by). */
  predicate ValidIConfig(c: IConfig) {
    forall m :: 0 <= m < 3 ==> CellModels[m] in c.synsperconn && c.synsperconn[CellModels[m]] != 0.0
  }

  /** The `cfg` object, as far as the derivation rules read and reassign it. */
  class Config {
    var EIGain: Gain
    var EPVGain: Gain
    var ESOMGain: Gain
    var IEGain: Gain
    var PVEGain: Gain
    var SOMEGain: Gain
    var IIGain: Gain
    var PVSOMGain: Gain
    var SOMPVGain: Gain
    var SOMSOMGain: Gain
    var PVPVGain: Gain
    var KgbarFactor: real
    var makeKgbarFactorEqualToNewFactor: bool
    var newFactor: real  // cfg.modifyMechs['newFactor']
    var addConn: bool
    var IEweights: seq<real>
    var IIweights: seq<real>
    var IPTGain: real
    var IFullGain: real
    var synsperconn: map<string, real>
    var synWeightFractionSOME: seq<real>
    var IEdisynapticBias: Option<real>

    /** The KgbarFactor offset: the minimum Kgbar is taken to be 0.5. */
    method ApplyKgbarOffset()
      modifies this`KgbarFactor
      ensures makeKgbarFactorEqualToNewFactor ==> KgbarFactor == 0.5 + newFactor
      ensures !makeKgbarFactorEqualToNewFactor ==> KgbarFactor == old(KgbarFactor)
      ensures makeKgbarFactorEqualToNewFactor && newFactor >= 0.0 ==> KgbarFactor >= 0.5
    {
      if makeKgbarFactorEqualToNewFactor {
        KgbarFactor := 0.5 + newFactor;
      }
    }

    /** The E->I gain rule; `ok` is false where the source raises TypeError. */
    method ResolveEIGains() returns (ok: bool)
      modifies this`EIGain, this`EPVGain, this`ESOMGain
      ensures ok == ResolvePair(old(PairGains(EIGain, EPVGain, ESOMGain))).Some?
      ensures ok ==> PairGains(EIGain, EPVGain, ESOMGain) == ResolvePair(old(PairGains(EIGain, EPVGain, ESOMGain))).value
      ensures !ok ==> EIGain == old(EIGain) && EPVGain == old(EPVGain) && ESOMGain == old(ESOMGain)
    {
      ok := true;
      if Truthy(EIGain) {
        EPVGain := EIGain;
        ESOMGain := EIGain;
      } else if EPVGain.Num? && ESOMGain.Num? {
        EIGain := Num((EPVGain.value + ESOMGain.value) / 2.0);
      } else {
        ok := false;
      }
    }

    /** The I->E gain rule over PVE/SOME. */
    method ResolveIEGains() returns (ok: bool)
      modifies this`IEGain, this`PVEGain, this`SOMEGain
      ensures ok == ResolvePair(old(PairGains(IEGain, PVEGain, SOMEGain))).Some?
      ensures ok ==> PairGains(IEGain, PVEGain, SOMEGain) == ResolvePair(old(PairGains(IEGain, PVEGain, SOMEGain))).value
      ensures !ok ==> IEGain == old(IEGain) && PVEGain == old(PVEGain) && SOMEGain == old(SOMEGain)
    {
      ok := true;
      if Truthy(IEGain) {
        PVEGain := IEGain;
        SOMEGain := IEGain;
      } else if PVEGain.Num? && SOMEGain.Num? {
        IEGain := Num((PVEGain.value + SOMEGain.value) / 2.0);
      } else {
        ok := false;
      }
    }

    /** The I->I gain rule over the four I->I gains. */
    method ResolveIIGains() returns (ok: bool)
      modifies this`IIGain, this`PVSOMGain, this`SOMPVGain, this`SOMSOMGain, this`PVPVGain
      ensures var r := ResolveQuad(old(QuadGains(IIGain, PVSOMGain, SOMPVGain, SOMSOMGain, PVPVGain)));
        && ok == r.Some?
        && (ok ==> QuadGains(IIGain, PVSOMGain, SOMPVGain, SOMSOMGain, PVPVGain) == r.value)
        && (!ok ==> QuadGains(IIGain, PVSOMGain, SOMPVGain, SOMSOMGain, PVPVGain) ==
                    old(QuadGains(IIGain, PVSOMGain, SOMPVGain, SOMSOMGain, PVPVGain)))
    {
      ok := true;
      if Truthy(IIGain) {
        SOMPVGain := IIGain;
        PVSOMGain := IIGain;
        SOMSOMGain := IIGain;
        PVPVGain := IIGain;
      } else if PVSOMGain.Num? && SOMPVGain.Num? && SOMSOMGain.Num? && PVPVGain.Num? {
        IIGain := Num((PVSOMGain.value + SOMPVGain.value + SOMSOMGain.value + PVPVGain.value) / 4.0);
      } else {
        ok := false;
      }
    }

    /** Every gain the I->all block multiplies by or compares is a number. */
    predicate IGainsSet()
      reads this
    {
      && IEGain.Num? && IIGain.Num? && PVEGain.Num? && SOMEGain.Num?
      && PVPVGain.Num? && SOMPVGain.Num? && PVSOMGain.Num? && SOMSOMGain.Num?
    }

    function ISettings(): IConfig
      reads this
      requires IGainsSet()
    {
      IConfig(IEweights, IIweights, PVEGain.value, SOMEGain.value,
              PVPVGain.value, SOMPVGain.value, PVSOMGain.value, SOMSOMGain.value,
              IPTGain, IFullGain, synsperconn, synWeightFractionSOME, IEdisynapticBias)
    }

    /** `cfg.addConn and (cfg.IEGain > 0.0 or cfg.IIGain > 0.0)`. */
    predicate IAllEnabled()
      reads this
      requires IGainsSet()
    {
      addConn && (IEGain.value > 0.0 || IIGain.value > 0.0)
    }
  }

  // ---------------------------------------------------------------------
  // Potassium conductance scaling

  /** A section of a cell rule: its mechanisms (name to parameters) and its geometry. */
  datatype Section = Section(mechs: map<string, map<string, real>>, geom: map<string, real>)

  /** A cell rule: its sections and its section lists. */
  datatype CellRule = CellRule(secs: map<string, Section>, secLists: map<string, seq<string>>)

  /** The cell rules whose K conductances are scaled after loading. */
  const KScaledRules: seq<string> := ["IT2_reduced", "IT4_reduced", "IT5A_reduced", "IT5B_reduced",
    "IT6_reduced", "CT6_reduced", "IT5A_full"]

  /** The cell rules the script loads from file. */
  const CellParamLabels: seq<string> := ["IT2_reduced", "IT4_reduced", "IT5A_reduced", "IT5B_reduced",
    "PT5B_reduced", "IT6_reduced", "CT6_reduced", "PV_simple", "SOM_simple", "IT5A_full", "PT5B_full"]

  /** `k.startswith('k') and k != 'kBK'`. */
  predicate IsScaledK(name: string) {
    |name| > 0 && name[0] == 'k' && name != "kBK"
  }

  /** Every scaled mechanism of the section has a `gbar` (else KeyError). */
  predicate SectionHasKGbar(sec: Section) {
    forall k :: k in sec.mechs && IsScaledK(k) ==> "gbar" in sec.mechs[k]
  }

  predicate HasKGbar(rule: CellRule) {
    forall s :: s in rule.secs ==> SectionHasKGbar(rule.secs[s])
  }

  function ScaleMech(p: map<string, real>, f: real): map<string, real>
    requires "gbar" in p
  {
    p["gbar" := p["gbar"] * f]
  }

  function ScaleSection(sec: Section, f: real): Section
    requires SectionHasKGbar(sec)
  {
    sec.(mechs := map k | k in sec.mechs :: if IsScaledK(k) then ScaleMech(sec.mechs[k], f) else sec.mechs[k])
  }

  /** The rule with the `gbar` of every K mechanism but kBK multiplied by `f`,
      and every other value as it was. */
  function ScaleRule(rule: CellRule, f: real): (r: CellRule)
    requires HasKGbar(rule)
    ensures r.secLists == rule.secLists && r.secs.Keys == rule.secs.Keys
    ensures forall s :: s in rule.secs ==>
      r.secs[s].geom == rule.secs[s].geom && r.secs[s].mechs.Keys == rule.secs[s].mechs.Keys
    ensures forall s, k, p :: s in rule.secs && k in rule.secs[s].mechs && p in rule.secs[s].mechs[k] ==>
      p in r.secs[s].mechs[k] &&
      r.secs[s].mechs[k][p] == if IsScaledK(k) && p == "gbar" then rule.secs[s].mechs[k][p] * f else rule.secs[s].mechs[k][p]
    ensures forall s, k :: s in rule.secs && k in rule.secs[s].mechs ==>
      r.secs[s].mechs[k].Keys == rule.secs[s].mechs[k].Keys
  {
    rule.(secs := map s | s in rule.secs :: ScaleSection(rule.secs[s], f))
  }

  /** Scaling by the default factor 1 leaves a rule unchanged. */
  lemma ScaleRuleByOne(rule: CellRule)
    requires HasKGbar(rule)
    ensures ScaleRule(rule, 1.0) == rule
  {
    var r := ScaleRule(rule, 1.0);
    forall s | s in rule.secs ensures r.secs[s] == rule.secs[s] {
      var sec := rule.secs[s];
      forall k | k in sec.mechs ensures r.secs[s].mechs[k] == sec.mechs[k] {
        if IsScaledK(k) {
          assert sec.mechs[k]["gbar" := sec.mechs[k]["gbar"] * 1.0] == sec.mechs[k];
        }
      }
      assert r.secs[s].mechs == sec.mechs;
    }
    assert r.secs == rule.secs;
  }

  /** `cellParams[cellLabel]` after loading (with its K scaling, where it applies). */
  function Loaded(files: map<string, CellRule>, cellLabel: string, factor: real): (r: CellRule)
    requires cellLabel in files && (cellLabel in KScaledRules ==> HasKGbar(files[cellLabel]))
    ensures cellLabel !in KScaledRules || factor == 1.0 ==> r == files[cellLabel]
    ensures r.secLists == files[cellLabel].secLists && r.secs.Keys == files[cellLabel].secs.Keys
  {
    if cellLabel !in KScaledRules then files[cellLabel]
    else if factor == 1.0 then
      ScaleRuleByOne(files[cellLabel]);
      ScaleRule(files[cellLabel], factor)
    else ScaleRule(files[cellLabel], factor)
  }

  // ---------------------------------------------------------------------
  // Connection rules

  /** A cell-type condition: one type, or a list of types. */
  datatype TypeCond = Type(name: string) | Types(names: seq<string>)

  /** One connectivity rule of the I->all block. */
  datatype ConnRule = ConnRule(
    preType: string, ynorm: (real, real), postModel: string, postType: TypeCond,
    synMech: seq<string>, probability: string, weight: real, delay: string, synsPerConn: real,
    synMechWeightFactor: seq<real>, sec: string, disynapticBias: Option<real>)

  const PreCellTypes: seq<string> := ["SOM", "SOM", "SOM", "PV", "PV", "PV"]
  const PostCellTypes: seq<TypeCond> := [Type("PT"), Types(["IT", "CT"]), Type("PV"), Type("SOM")]
  const IProbability := "1.0 * exp(-dist_3D_border/probLambda)"
  const IDelay := "defaultDelay+dist_3D_border/propVelocity"

  /** The three intralaminar ranges (L2/3+4, L5, L6), repeated for SOM and PV. */
  function IYnorms(): seq<(real, real)> {
    var three := [(Layer["2"].0, Layer["4"].1), (Layer["5A"].0, Layer["5B"].1), (Layer["6"].0, Layer["6"].1)];
    three + three
  }

  function IEDisynBiases(c: IConfig): seq<Option<real>> {
    [None, c.IEdisynapticBias, c.IEdisynapticBias, None, c.IEdisynapticBias, c.IEdisynapticBias]
  }

  function Min3(a: nat, b: nat, c: nat): nat {
    if a <= b && a <= c then a else if b <= c then b else c
  }

  /** The number of presynaptic iterations: `zip` stops at its shortest list. */
  function NumIPre(c: IConfig): (n: nat)
    ensures n <= 6 && n <= 2 * |c.IEweights| && n <= 2 * |c.IIweights|
  {
    Min3(6, 2 * |c.IEweights|, 2 * |c.IIweights|)
  }

  /** Which branch of the loop body each index takes. */
  lemma LoopConstants()
    ensures forall ipost :: 0 <= ipost < 4 ==>
      && (PostCellTypes[ipost] == Type("PV") <==> ipost == 2)
      && (PostCellTypes[ipost] == Type("SOM") <==> ipost == 3)
      && (PostCellTypes[ipost] == Types(["IT", "CT"]) <==> ipost == 1)
    ensures forall i :: 0 <= i < 6 ==> (PreCellTypes[i] == "PV" <==> i >= 3) && (PreCellTypes[i] == "PV" || PreCellTypes[i] == "SOM")
    ensures forall m :: 0 <= m < 3 ==> (CellModels[m] == "HH_full" <==> m == 2)
  {
    assert "PV" != "SOM" && "HH_full" != "HH_simple" && "HH_full" != "HH_reduced";
  }

  /** The weight before the full-model gain and the per-synapse division. */
  function IBaseWeight(c: IConfig, i: nat, ipost: nat): real
    requires i < NumIPre(c) && ipost < 4
  {
    var pv := PreCellTypes[i] == "PV";
    var ie := (c.IEweights + c.IEweights)[i];
    var ii := (c.IIweights + c.IIweights)[i];
    if ipost == 2 then ii * (if pv then c.PVPVGain else c.SOMPVGain)
    else if ipost == 3 then ii * (if pv then c.PVSOMGain else c.SOMSOMGain)
    else if ipost == 1 then ie * (if pv then c.PVEGain else c.SOMEGain)
    else ie * c.IPTGain * (if pv then c.PVEGain else c.SOMEGain)
  }

  function ISec(pre: string, ipost: nat): string {
    if ipost >= 2 then "soma" else if pre == "PV" then "perisom" else "spiny"
  }

  function ISynMech(pre: string, ipost: nat): seq<string> {
    if pre == "PV" then PVSynMech else if ipost >= 2 then SOMISynMech else SOMESynMech
  }

  /** The synaptic weight fractions: SOM->E takes cfg.synWeightFractionSOME,
      every I target takes [1]; PV->E never assigns the loop variable and
      carries the [1] of the previous iteration's SOM-target rules. */
  function ISynWeightFraction(c: IConfig, pre: string, ipost: nat): seq<real> {
    if ipost >= 2 || pre == "PV" then [1.0] else c.synWeightFractionSOME
  }

  /** The rule the loop builds at (i, ipost, cellModel index m), as the
      source computes it. `disynapticBias` is only assigned for E targets
      and carries over to the I targets that follow, so every rule of
      iteration i holds `IEdisynBiases[i]`. */
  function IRule(c: IConfig, i: nat, ipost: nat, m: nat): (r: ConnRule)
    requires ValidIConfig(c) && i < NumIPre(c) && ipost < 4 && m < 3
    ensures r.preType == PreCellTypes[i] && r.postType == PostCellTypes[ipost] && r.postModel == CellModels[m]
    ensures r.disynapticBias == if i % 3 == 0 then None else c.IEdisynapticBias
  {
    var pre := PreCellTypes[i];
    var model := CellModels[m];
    var base := IBaseWeight(c, i, ipost);
    var w := if model == "HH_full" then base * c.IFullGain else base;
    ConnRule(pre, IYnorms()[i], model, PostCellTypes[ipost], ISynMech(pre, ipost),
      IProbability, w / c.synsperconn[model], IDelay, c.synsperconn[model],
      ISynWeightFraction(c, pre, ipost), ISec(pre, ipost), IEDisynBiases(c)[i])
  }

  /** `IRule`, field by field. */
  lemma IRuleFields(c: IConfig, i: nat, ipost: nat, m: nat)
    requires ValidIConfig(c) && i < NumIPre(c) && ipost < 4 && m < 3
    ensures var base := IBaseWeight(c, i, ipost);
      var w := if CellModels[m] == "HH_full" then base * c.IFullGain else base;
      IRule(c, i, ipost, m) == ConnRule(PreCellTypes[i], IYnorms()[i], CellModels[m], PostCellTypes[ipost],
        ISynMech(PreCellTypes[i], ipost), IProbability, w / c.synsperconn[CellModels[m]], IDelay,
        c.synsperconn[CellModels[m]], ISynWeightFraction(c, PreCellTypes[i], ipost), ISec(PreCellTypes[i], ipost),
        IEDisynBiases(c)[i])
  {
  }

  /** The rule as the comment on `disynapticBias = None` intends: I->I rules
      carry no disynaptic bias. */
  function IRuleIntended(c: IConfig, i: nat, ipost: nat, m: nat): (r: ConnRule)
    requires ValidIConfig(c) && i < NumIPre(c) && ipost < 4 && m < 3
    ensures r.disynapticBias == if ipost >= 2 || i % 3 == 0 then None else c.IEdisynapticBias
    ensures r.(disynapticBias := IRule(c, i, ipost, m).disynapticBias) == IRule(c, i, ipost, m)
  {
    IRule(c, i, ipost, m).(disynapticBias := if ipost >= 2 then None else IEDisynBiases(c)[i])
  }

  /** `'I_' + cellModel + '_' + str(i) + '_' + str(ipost)`. */
  function ILabel(i: nat, ipost: nat, m: nat): string
    requires i < 10 && ipost < 10 && m < 3
  {
    "I_" + CellModels[m] + "_" + [Text.Digit(i)] + "_" + [Text.Digit(ipost)]
  }

  /** A label reads back as its parts: the prefix `I_`, the cell model, and
      the two indices after underscores. */
  lemma ILabelParts(i: nat, ipost: nat, m: nat)
    requires i < 10 && ipost < 10 && m < 3
    ensures var r := ILabel(i, ipost, m);
      && |r| == |CellModels[m]| + 6 && r[..2] == "I_" && r[2..|r| - 4] == CellModels[m]
      && r[|r| - 4..] == ['_', Text.Digit(i), '_', Text.Digit(ipost)]
  {
  }

  /** The block's rules in loop order: i outermost, then the post type, then
      the cell model. */
  function IRuleEntries(c: IConfig): (s: seq<(string, ConnRule)>)
    requires ValidIConfig(c)
    ensures |s| == 12 * NumIPre(c)
  {
    seq(12 * NumIPre(c), k requires 0 <= k < 12 * NumIPre(c) =>
      (ILabel(k / 12, k % 12 / 3, k % 12 % 3), IRule(c, k / 12, k % 12 / 3, k % 12 % 3)))
  }

  /** The flat index of iteration (i, ipost, m) and back. */
  lemma FlatIndex(i: nat, ipost: nat, m: nat)
    requires ipost < 4 && m < 3
    ensures (12 * i + 3 * ipost + m) / 12 == i
    ensures (12 * i + 3 * ipost + m) % 12 / 3 == ipost
    ensures (12 * i + 3 * ipost + m) % 12 % 3 == m
  {
    var k := 12 * i + 3 * ipost + m;
    assert 0 <= 3 * ipost + m < 12;
    assert k % 12 == 3 * ipost + m;
  }

  lemma FlatIndexSplit(k: nat)
    ensures k == 12 * (k / 12) + 3 * (k % 12 / 3) + k % 12 % 3
    ensures k % 12 / 3 < 4 && k % 12 % 3 < 3
  {
  }

  lemma EntryAt(c: IConfig, i: nat, ipost: nat, m: nat)
    requires ValidIConfig(c) && i < NumIPre(c) && ipost < 4 && m < 3
    ensures 12 * i + 3 * ipost + m < |IRuleEntries(c)|
    ensures IRuleEntries(c)[12 * i + 3 * ipost + m] == (ILabel(i, ipost, m), IRule(c, i, ipost, m))
  {
    var k := 12 * i + 3 * ipost + m;
    FlatIndex(i, ipost, m);
    assert k < 12 * NumIPre(c);
    var s := IRuleEntries(c);
    assert s[k] == (ILabel(k / 12, k % 12 / 3, k % 12 % 3), IRule(c, k / 12, k % 12 / 3, k % 12 % 3));
  }

  /** The 12 entries of presynaptic iteration `i` sit at 12 * i onwards. */
  predicate IterationEntries(c: IConfig, entries: seq<(string, ConnRule)>, i: nat)
    requires ValidIConfig(c) && i < NumIPre(c)
  {
    && 12 * i + 12 <= |entries|
    && forall ipost, m :: 0 <= ipost < 4 && 0 <= m < 3 ==>
         entries[12 * i + 3 * ipost + m] == (ILabel(i, ipost, m), IRule(c, i, ipost, m))
  }

  /** The three entries of one post type within an iteration. */
  lemma IterationSlice(c: IConfig, entries: seq<(string, ConnRule)>, i: nat, ipost: nat, start: nat)
    requires ValidIConfig(c) && i < NumIPre(c) && ipost < 4 && IterationEntries(c, entries, i)
    requires start == 12 * i + 3 * ipost
    ensures start + 3 <= |entries|
    ensures forall m :: 0 <= m < 3 ==> entries[start + m] == (ILabel(i, ipost, m), IRule(c, i, ipost, m))
  {
  }

  lemma IRuleEntriesByIteration(c: IConfig, i: nat)
    requires ValidIConfig(c) && i < NumIPre(c)
    ensures IterationEntries(c, IRuleEntries(c), i)
  {
    forall ipost, m | 0 <= ipost < 4 && 0 <= m < 3
      ensures IRuleEntries(c)[12 * i + 3 * ipost + m] == (ILabel(i, ipost, m), IRule(c, i, ipost, m))
    {
      EntryAt(c, i, ipost, m);
    }
  }

  /** Different iterations give different labels. */
  lemma ILabelInjective(i1: nat, p1: nat, m1: nat, i2: nat, p2: nat, m2: nat)
    requires i1 < 10 && p1 < 10 && m1 < 3 && i2 < 10 && p2 < 10 && m2 < 3
    requires ILabel(i1, p1, m1) == ILabel(i2, p2, m2)
    ensures i1 == i2 && p1 == p2 && m1 == m2
  {
    var l := ILabel(i1, p1, m1);
    assert |l| == |CellModels[m1]| + 6 == |CellModels[m2]| + 6;
    assert l[|l| - 1] == Text.Digit(p1) == Text.Digit(p2);
    assert l[|l| - 3] == Text.Digit(i1) == Text.Digit(i2);
  }

  function LabelSet(s: seq<(string, ConnRule)>): set<string> {
    set k | 0 <= k < |s| :: s[k].0
  }

  predicate DistinctLabels(s: seq<(string, ConnRule)>) {
    forall k1, k2 :: 0 <= k1 < k2 < |s| ==> s[k1].0 != s[k2].0
  }

  /** The block's labels are pairwise distinct: 12 per presynaptic
      iteration, 72 with three layer weights of each kind. */
  lemma IRuleLabelsDistinct(c: IConfig)
    requires ValidIConfig(c)
    ensures DistinctLabels(IRuleEntries(c))
    ensures |LabelSet(IRuleEntries(c))| == 12 * NumIPre(c)
    ensures |c.IEweights| == 3 && |c.IIweights| == 3 ==> |LabelSet(IRuleEntries(c))| == 72
  {
    var s := IRuleEntries(c);
    forall k1, k2 | 0 <= k1 < k2 < |s| ensures s[k1].0 != s[k2].0 {
      FlatIndexSplit(k1);
      FlatIndexSplit(k2);
      if s[k1].0 == s[k2].0 {
        ILabelInjective(k1 / 12, k1 % 12 / 3, k1 % 12 % 3, k2 / 12, k2 % 12 / 3, k2 % 12 % 3);
      }
    }
    LabelSetSize(s);
  }

  lemma {:induction false} LabelSetSize(s: seq<(string, ConnRule)>)
    requires DistinctLabels(s)
    ensures |LabelSet(s)| == |s|
  {
    if s != [] {
      var n := |s| - 1;
      LabelSetSize(s[..n]);
      assert LabelSet(s) == LabelSet(s[..n]) + {s[n].0};
      assert s[n].0 !in LabelSet(s[..n]);
    }
  }

  /** Inserting rules one by one into `connParams`. */
  function InsertAll(m: map<string, ConnRule>, s: seq<(string, ConnRule)>): map<string, ConnRule> {
    if s == [] then m else InsertAll(m, s[..|s| - 1])[s[|s| - 1].0 := s[|s| - 1].1]
  }

  /** Inserting one more rule. */
  lemma InsertAllStep(m: map<string, ConnRule>, s: seq<(string, ConnRule)>, k: nat)
    requires k < |s|
    ensures InsertAll(m, s[..k + 1]) == InsertAll(m, s[..k])[s[k].0 := s[k].1]
  {
    assert s[..k + 1][..k] == s[..k];
  }

  /** The first `n` rules of `s` inserted one by one. */
  function Inserted(m: map<string, ConnRule>, s: seq<(string, ConnRule)>, n: nat): map<string, ConnRule>
    requires n <= |s|
  {
    if n == 0 then m else Inserted(m, s, n - 1)[s[n - 1].0 := s[n - 1].1]
  }

  /** One more entry of `s` is one more map assignment. */
  lemma InsertedNext(m: map<string, ConnRule>, s: seq<(string, ConnRule)>, n: nat)
    requires n < |s|
    ensures Inserted(m, s, n + 1) == Inserted(m, s, n)[s[n].0 := s[n].1]
  {
  }

  lemma {:induction false} InsertedPrefix(m: map<string, ConnRule>, s: seq<(string, ConnRule)>, n: nat)
    requires n <= |s|
    ensures Inserted(m, s, n) == InsertAll(m, s[..n])
  {
    if n > 0 {
      InsertedPrefix(m, s, n - 1);
      InsertAllStep(m, s, n - 1);
    }
  }

  lemma DistinctFront(s: seq<(string, ConnRule)>, n: nat)
    requires DistinctLabels(s) && n <= |s|
    ensures DistinctLabels(s[..n])
  {
    var front := s[..n];
    forall k1, k2 | 0 <= k1 < k2 < |front| ensures front[k1].0 != front[k2].0 {
      assert front[k1] == s[k1] && front[k2] == s[k2];
    }
  }

  lemma LabelSetSnoc(s: seq<(string, ConnRule)>)
    requires |s| > 0
    ensures LabelSet(s) == LabelSet(s[..|s| - 1]) + {s[|s| - 1].0}
  {
    var n := |s| - 1;
    var front := s[..n];
    forall x | x in LabelSet(s) ensures x in LabelSet(front) + {s[n].0} {
      var k :| 0 <= k < |s| && s[k].0 == x;
      if k < n { assert front[k].0 == x; }
    }
    forall x | x in LabelSet(front) ensures x in LabelSet(s) {
      var k :| 0 <= k < |front| && front[k].0 == x;
      assert s[k].0 == x;
    }
  }

  /** After inserting rules with distinct labels every label maps to its rule
      and every other rule is untouched. */
  lemma {:induction false} InsertAllContents(m: map<string, ConnRule>, s: seq<(string, ConnRule)>)
    requires DistinctLabels(s)
    ensures InsertAll(m, s).Keys == m.Keys + LabelSet(s)
    ensures forall k :: 0 <= k < |s| ==> InsertAll(m, s)[s[k].0] == s[k].1
    ensures forall x :: x in m && x !in LabelSet(s) ==> InsertAll(m, s)[x] == m[x]
  {
    if s != [] {
      var n := |s| - 1;
      var front := s[..n];
      DistinctFront(s, n);
      InsertAllContents(m, front);
      var prev := InsertAll(m, front);
      var last := s[n];
      assert InsertAll(m, s) == prev[last.0 := last.1];
      LabelSetSnoc(s);
      forall k | 0 <= k < |s| ensures InsertAll(m, s)[s[k].0] == s[k].1 {
        if k < n {
          assert s[k].0 != last.0;
          assert front[k] == s[k];
        }
      }
      forall x | x in m && x !in LabelSet(s) ensures InsertAll(m, s)[x] == m[x] {
        assert x != last.0 && x !in LabelSet(front);
      }
    }
  }

  /** The layer weight of a rule: `IEweights[i % 3]` for an E target,
      `IIweights[i % 3]` for an I target. */
  function LayerWeight(c: IConfig, i: nat, ipost: nat): real
    requires |c.IEweights| == 3 && |c.IIweights| == 3
  {
    if ipost < 2 then c.IEweights[i % 3] else c.IIweights[i % 3]
  }

  /** The gain of a (presynaptic type, target) pair; types 3-5 are PV. */
  function PairGain(c: IConfig, i: nat, ipost: nat): real {
    var pv := i >= 3;
    if ipost < 2 then (if pv then c.PVEGain else c.SOMEGain)
    else if ipost == 2 then (if pv then c.PVPVGain else c.SOMPVGain)
    else (if pv then c.PVSOMGain else c.SOMSOMGain)
  }

  lemma BaseWeightProduct(c: IConfig, i: nat, ipost: nat)
    requires |c.IEweights| == 3 && |c.IIweights| == 3 && i < 6 && ipost < 4
    ensures NumIPre(c) == 6
    ensures IBaseWeight(c, i, ipost) == LayerWeight(c, i, ipost) * PairGain(c, i, ipost) * (if ipost == 0 then c.IPTGain else 1.0)
  {
    assert (c.IEweights + c.IEweights)[i] == c.IEweights[i % 3];
    assert (c.IIweights + c.IIweights)[i] == c.IIweights[i % 3];
    LoopConstants();
    var w := LayerWeight(c, i, ipost);
    var g := PairGain(c, i, ipost);
    if ipost == 0 {
      assert IBaseWeight(c, i, ipost) == w * c.IPTGain * g == w * g * c.IPTGain;
    } else {
      assert IBaseWeight(c, i, ipost) == w * g == w * g * 1.0;
    }
  }

  /** With the configured three layer weights of each kind, the weight of
      every rule is a product: the layer weight, the pair gain, IPTGain for
      PT targets and IFullGain for HH_full, over the model's synapses per
      connection. */
  lemma IRuleWeight(c: IConfig, i: nat, ipost: nat, m: nat)
    requires ValidIConfig(c) && |c.IEweights| == 3 && |c.IIweights| == 3
    requires i < 6 && ipost < 4 && m < 3
    ensures NumIPre(c) == 6
    ensures IRule(c, i, ipost, m).weight ==
      LayerWeight(c, i, ipost) * PairGain(c, i, ipost) * (if ipost == 0 then c.IPTGain else 1.0)
      * (if m == 2 then c.IFullGain else 1.0) / c.synsperconn[CellModels[m]]
  {
    BaseWeightProduct(c, i, ipost);
    IRuleFields(c, i, ipost, m);
    LoopConstants();
    var base := IBaseWeight(c, i, ipost);
    if m != 2 {
      assert base * 1.0 == base;
    }
  }

  /** Sections and synaptic mechanisms: soma for PV/SOM targets, perisom for
      PV->E and spiny for SOM->E; PVSynMech from PV, SOMISynMech for SOM->I
      and SOMESynMech for SOM->E. */
  lemma IRuleSecAndMech(c: IConfig, i: nat, ipost: nat, m: nat)
    requires ValidIConfig(c) && i < NumIPre(c) && ipost < 4 && m < 3
    ensures var r := IRule(c, i, ipost, m);
      && (r.postType == Type("PV") || r.postType == Type("SOM") <==> r.sec == "soma")
      && (r.preType == "PV" && r.postType != Type("PV") && r.postType != Type("SOM") <==> r.sec == "perisom")
      && (r.preType == "SOM" && r.postType != Type("PV") && r.postType != Type("SOM") <==> r.sec == "spiny")
      && (r.preType == "PV" <==> r.synMech == PVSynMech)
      && (r.preType == "SOM" && ipost >= 2 <==> r.synMech == SOMISynMech)
      && (r.preType == "SOM" && ipost < 2 <==> r.synMech == SOMESynMech)
  {
    assert PreCellTypes[i] == "PV" || PreCellTypes[i] == "SOM";
    assert PVSynMech != SOMISynMech && PVSynMech != SOMESynMech && SOMISynMech != SOMESynMech;
  }

  /** As written, the L5 and L6 I->I rules inherit cfg.IEdisynapticBias
      from the I->E rules before them; the intended rule has none. */
  lemma IIRulesInheritDisynapticBias(c: IConfig, b: real, m: nat)
    requires ValidIConfig(c) && |c.IEweights| == 3 && |c.IIweights| == 3 && m < 3
    requires c.IEdisynapticBias == Some(b)
    ensures NumIPre(c) == 6
    ensures forall i, ipost :: 0 <= i < 6 && i % 3 != 0 && 2 <= ipost < 4 ==>
      IRule(c, i, ipost, m).disynapticBias == Some(b) && IRuleIntended(c, i, ipost, m).disynapticBias == None
  {
  }

  /** The intended rule carries no disynaptic bias into an I target, and on
      E targets it is the written rule. */
  lemma IntendedRuleDiffersOnlyInBias(c: IConfig, i: nat, ipost: nat, m: nat)
    requires ValidIConfig(c) && i < NumIPre(c) && ipost < 4 && m < 3
    ensures ipost >= 2 ==> IRuleIntended(c, i, ipost, m).disynapticBias == None
    ensures ipost < 2 ==> IRuleIntended(c, i, ipost, m) == IRule(c, i, ipost, m)
  {
  }

  // ---------------------------------------------------------------------
  // Pulses and subcellular targets

  /** A pulse setting; `duration` is `None` when the key is absent or `None`. */
  datatype Pulse = Pulse(pop: string, start: real, end: real, duration: Option<real>)

  /** The end of a pulse: start + duration when a positive duration is given. */
  function PulseEnd(p: Pulse): (r: real)
    ensures p.duration.Some? && p.duration.value > 0.0 ==> r - p.start == p.duration.value && r > p.start
    ensures !(p.duration.Some? && p.duration.value > 0.0) ==> r == p.end
  {
    if p.duration.Some? && p.duration.value > 0.0 then p.start + p.duration.value else p.end
  }

  /** Why a subcellular key cannot be read. */
  datatype SubConnError =
    | UnpackError(key: string)  // `prePop, post = k.split('_')` needs exactly two pieces
    | NoLayerIndex(post: string)  // `post.split('L')[1]` needs an 'L'
    | UnknownLayer(name: string)  // `layer[...]` KeyError

  /** The post-synaptic conditions of one subcellular rule. */
  datatype SubConnPost = SubConnPost(ynorm: (real, real), cellTypes: seq<string>)

  /** The post conditions of the long-range-to-E subcellular rule for a key
      such as 'M2_L2': the post layer's range, extended to the end of L4 for
      L2, and PT cells among the targets only for OC and TPO. */
  function SubConnPostConds(key: string): (r: Result<SubConnPost, SubConnError>)
    ensures (r.Err? && r.error.UnpackError?) <==> |Text.Split(key, '_')| != 2
    ensures r.Ok? ==> "IT" in r.value.cellTypes && "CT" in r.value.cellTypes
    ensures r.Ok? ==> ("PT" in r.value.cellTypes <==> Text.Split(key, '_')[0] in ["OC", "TPO"])
    ensures r.Ok? ==> r.value.ynorm.0 < r.value.ynorm.1
  {
    var parts := Text.Split(key, '_');
    if |parts| != 2 then Err(UnpackError(key))
    else
      var prePop := parts[0];
      var post := parts[1];
      var postCellTypes := if prePop in ["OC", "TPO"] then ["IT", "PT", "CT"] else ["IT", "CT"];
      var pieces := Text.Split(post, 'L');
      if |pieces| < 2 then Err(NoLayerIndex(post))
      else if pieces[1] !in Layer then Err(UnknownLayer(pieces[1]))
      else
        LayerRangesNonEmpty();
        var range := Layer[pieces[1]];
        var postyRange := if post == "L2" then (range.0, Layer["4"].1) else range;
        assert postyRange.0 < postyRange.1 by {
          if post == "L2" {
            assert post == "" + ['L'] + "2";
            Text.SplitAtFirst("", "2", 'L');
            Text.SplitWithoutSeparator("2", 'L');
            L2RangeIs24();
          }
        }
        assert "PT" in postCellTypes <==> prePop in ["OC", "TPO"];
        Ok(SubConnPost(postyRange, postCellTypes))
  }

  /** For a well-formed key `<pre>_L<layer>` the rule targets the layer's
      range (L2 reaching the end of L4, which is the L2/3+4 range '24'), and
      PT cells exactly when the source is OC or TPO. */
  lemma SubConnPostOfKey(pre: string, lay: string)
    requires '_' !in pre && '_' !in lay && 'L' !in lay && lay in Layer
    ensures SubConnPostConds(pre + "_L" + lay).Ok?
    ensures var r := SubConnPostConds(pre + "_L" + lay).value;
      && r.ynorm == (if lay == "2" then Layer["24"] else Layer[lay])
      && ("PT" in r.cellTypes <==> pre == "OC" || pre == "TPO")
      && "IT" in r.cellTypes && "CT" in r.cellTypes
  {
    var post := "L" + lay;
    assert pre + "_L" + lay == pre + "_" + post;
    KeySplit(pre, post);
    LayerSplit(lay);
    SubConnPostOfSplit(pre + "_" + post, pre, post, lay);
    assert post == "L2" <==> lay == "2" by {
      if post == "L2" { assert lay == post[1..] == "2"; }
    }
    L2RangeIs24();
  }

  /** The rule's conditions once the key is split into `pre`, `post` and the layer name. */
  lemma SubConnPostOfSplit(key: string, pre: string, post: string, lay: string)
    requires Text.Split(key, '_') == [pre, post] && Text.Split(post, 'L') == ["", lay] && lay in Layer
    ensures SubConnPostConds(key) == Ok(SubConnPost(
      if post == "L2" then (Layer[lay].0, Layer["4"].1) else Layer[lay],
      if pre in ["OC", "TPO"] then ["IT", "PT", "CT"] else ["IT", "CT"]))
  {
  }

  /** Every named layer range has its lower end below its upper end. */
  lemma LayerRangesNonEmpty()
    ensures forall k :: k in Layer ==> Layer[k].0 < Layer[k].1
  {
  }

  /** L2 extended to the end of L4 is the L2/3+4 range. */
  lemma L2RangeIs24()
    ensures (Layer["2"].0, Layer["4"].1) == Layer["24"]
  {
  }

  lemma KeySplit(pre: string, post: string)
    requires '_' !in pre && '_' !in post
    ensures Text.Split(pre + "_" + post, '_') == [pre, post]
  {
    assert pre + "_" + post == pre + ['_'] + post;
    Text.SplitWithoutSeparator(post, '_');
    Text.SplitAtFirst(pre, post, '_');
  }

  lemma LayerSplit(lay: string)
    requires 'L' !in lay
    ensures Text.Split("L" + lay, 'L') == ["", lay]
  {
    assert "L" + lay == [] + ['L'] + lay;
    Text.SplitWithoutSeparator(lay, 'L');
    Text.SplitAtFirst([], lay, 'L');
  }

  // ---------------------------------------------------------------------
  // The netParams object

  /** The parts of `netParams` the derivation rules write. */
  class NetParams {
    var cellParams: map<string, CellRule>
    var connParams: map<string, ConnRule>

    /** The inner loops of the K scaling, for one section: multiply the
        `gbar` of each of its K mechanisms but kBK by `factor`. */
    method ScaleSectionInPlace(cellLabel: string, secName: string, factor: real)
      requires cellLabel in cellParams && secName in cellParams[cellLabel].secs
      requires SectionHasKGbar(cellParams[cellLabel].secs[secName])
      modifies this`cellParams
      ensures cellParams == old(cellParams)[cellLabel := old(cellParams)[cellLabel].(secs :=
        old(cellParams)[cellLabel].secs[secName := ScaleSection(old(cellParams)[cellLabel].secs[secName], factor)])]
    {
      var rule := cellParams[cellLabel];
      var sec := rule.secs[secName];
      var kmechs := set k | k in sec.mechs && IsScaledK(k);
      var remaining := kmechs;
      var mechs := sec.mechs;
      assert rule.secs[secName := sec.(mechs := mechs)] == rule.secs;
      while remaining != {}
        invariant remaining <= kmechs
        invariant cellParams == old(cellParams)[cellLabel := rule.(secs := rule.secs[secName := sec.(mechs := mechs)])]
        invariant mechs.Keys == sec.mechs.Keys
        invariant forall k :: k in sec.mechs ==>
          mechs[k] == if k in kmechs && k !in remaining then ScaleMech(sec.mechs[k], factor) else sec.mechs[k]
        decreases remaining
      {
        var kmech :| kmech in remaining;
        var mech := mechs[kmech];
        assert mech == sec.mechs[kmech] && "gbar" in mech;
        var sm := ScaleMech(mech, factor);
        assert sm["gbar"] == mech["gbar"] * factor;
        assert sm.Keys == mech.Keys;
        assert forall x :: x in mech && x != "gbar" ==> sm[x] == mech[x];
        mechs := mechs[kmech := mech["gbar" := mech["gbar"] * factor]];
        cellParams := cellParams[cellLabel := rule.(secs := rule.secs[secName := sec.(mechs := mechs)])];
        remaining := remaining - {kmech};
      }
      assert mechs == ScaleSection(sec, factor).mechs;
    }

    /** The K scaling of one cell rule, section by section. */
    method AdaptKGbar(cellLabel: string, factor: real)
      requires cellLabel in cellParams && HasKGbar(cellParams[cellLabel])
      modifies this`cellParams
      ensures cellParams == old(cellParams)[cellLabel := ScaleRule(old(cellParams)[cellLabel], factor)]
    {
      var rule := cellParams[cellLabel];
      var todo := rule.secs.Keys;
      while todo != {}
        invariant todo <= rule.secs.Keys
        invariant cellLabel in cellParams
        invariant cellParams == old(cellParams)[cellLabel := rule.(secs := cellParams[cellLabel].secs)]
        invariant cellParams[cellLabel].secs.Keys == rule.secs.Keys
        invariant forall s :: s in rule.secs ==>
          cellParams[cellLabel].secs[s] == if s in todo then rule.secs[s] else ScaleSection(rule.secs[s], factor)
        decreases todo
      {
        var secName :| secName in todo;
        ScaleSectionInPlace(cellLabel, secName, factor);
        todo := todo - {secName};
      }
      assert cellParams[cellLabel].secs == ScaleRule(rule, factor).secs;
    }

    /** The loading loop: each listed rule is read from its file (given here
        as `files`) and, when it is one of the K-scaled rules, scaled. */
    method LoadCellRules(files: map<string, CellRule>, labels: seq<string>, factor: real)
      requires forall i :: 0 <= i < |labels| ==> labels[i] in files
      requires forall i :: 0 <= i < |labels| && labels[i] in KScaledRules ==> HasKGbar(files[labels[i]])
      modifies this`cellParams
      ensures cellParams.Keys == old(cellParams).Keys + set i | 0 <= i < |labels| :: labels[i]
      ensures forall i :: 0 <= i < |labels| ==> cellParams[labels[i]] == Loaded(files, labels[i], factor)
      ensures forall l :: l in old(cellParams) && l !in labels ==> cellParams[l] == old(cellParams)[l]
    {
      for i := 0 to |labels|
        invariant cellParams.Keys == old(cellParams).Keys + set j | 0 <= j < i :: labels[j]
        invariant forall j :: 0 <= j < i ==> cellParams[labels[j]] == Loaded(files, labels[j], factor)
        invariant forall l :: l in old(cellParams) && l !in labels[..i] ==> cellParams[l] == old(cellParams)[l]
      {
        var ruleLabel := labels[i];
        cellParams := cellParams[ruleLabel := files[ruleLabel]];
        if ruleLabel in KScaledRules {
          AdaptKGbar(ruleLabel, factor);
        }
        assert (set j | 0 <= j < i + 1 :: labels[j]) == (set j | 0 <= j < i :: labels[j]) + {ruleLabel};
        assert labels[..i + 1] == labels[..i] + [ruleLabel];
      }
    }

    /** The post-type branches of the I->all loop body: the weight before
        the full-model gain, the synaptic mechanisms and section, and the two
        loop variables that carry over (`disynapticBias` is only assigned for
        E targets, `synWeightFraction` not for PV->E). */
    method IBranches(c: IConfig, i: nat, preCellType: string, IEweight: real, IIweight: real,
                     IEdisynBias: Option<real>, ipost: nat, bias0: Option<real>, fraction0: seq<real>)
      returns (weight: real, synMech: seq<string>, sec: string, disynapticBias: Option<real>, synWeightFraction: seq<real>)
      requires i < NumIPre(c) && ipost < 4
      requires preCellType == PreCellTypes[i] && IEdisynBias == IEDisynBiases(c)[i]
      requires IEweight == (c.IEweights + c.IEweights)[i] && IIweight == (c.IIweights + c.IIweights)[i]
      requires ipost >= 2 ==> bias0 == IEdisynBias
      requires preCellType == "PV" && ipost < 2 ==> fraction0 == [1.0]
      ensures weight == IBaseWeight(c, i, ipost)
      ensures synMech == ISynMech(preCellType, ipost) && sec == ISec(preCellType, ipost)
      ensures disynapticBias == IEdisynBias
      ensures synWeightFraction == ISynWeightFraction(c, preCellType, ipost)
    {
      LoopConstants();
      var postCellType := PostCellTypes[ipost];
      disynapticBias, synWeightFraction := bias0, fraction0;
      if postCellType == Type("PV") {
        sec := "soma";
        synWeightFraction := [1.0];
        if preCellType == "PV" {
          weight := IIweight * c.PVPVGain;
          synMech := PVSynMech;
        } else {
          weight := IIweight * c.SOMPVGain;
          synMech := SOMISynMech;
        }
      } else if postCellType == Type("SOM") {
        sec := "soma";
        synWeightFraction := [1.0];
        if preCellType == "PV" {
          weight := IIweight * c.PVSOMGain;
          synMech := PVSynMech;
        } else {
          weight := IIweight * c.SOMSOMGain;
          synMech := SOMISynMech;
        }
      } else if postCellType == Types(["IT", "CT"]) {
        disynapticBias := IEdisynBias;
        if preCellType == "PV" {
          weight := IEweight * c.PVEGain;
          synMech := PVSynMech;
          sec := "perisom";
        } else {
          weight := IEweight * c.SOMEGain;
          synMech := SOMESynMech;
          sec := "spiny";
          synWeightFraction := c.synWeightFractionSOME;
        }
      } else {
        // postCellType == 'PT'
        disynapticBias := IEdisynBias;
        if preCellType == "PV" {
          weight := IEweight * c.IPTGain * c.PVEGain;
          synMech := PVSynMech;
          sec := "perisom";
        } else {
          weight := IEweight * c.IPTGain * c.SOMEGain;
          synMech := SOMESynMech;
          sec := "spiny";
          synWeightFraction := c.synWeightFractionSOME;
        }
      }
    }

    /** The body of the I->all loop for one (i, ipost, cellModel): the rule
        it stores and the loop variables it leaves for the next iteration. */
    method IRuleStep(c: IConfig, i: nat, preCellType: string, ynorm: (real, real), IEweight: real, IIweight: real,
                     IEdisynBias: Option<real>, ipost: nat, m: nat, bias0: Option<real>, fraction0: seq<real>)
      returns (rule: ConnRule, disynapticBias: Option<real>, synWeightFraction: seq<real>)
      requires ValidIConfig(c)
      requires i < NumIPre(c) && ipost < 4 && m < 3
      requires preCellType == PreCellTypes[i] && ynorm == IYnorms()[i] && IEdisynBias == IEDisynBiases(c)[i]
      requires IEweight == (c.IEweights + c.IEweights)[i] && IIweight == (c.IIweights + c.IIweights)[i]
      requires ipost >= 2 ==> bias0 == IEdisynBias
      requires preCellType == "PV" && ipost < 2 ==> fraction0 == [1.0]
      ensures rule == IRule(c, i, ipost, m)
      ensures disynapticBias == IEdisynBias
      ensures synWeightFraction == ISynWeightFraction(c, preCellType, ipost)
    {
      var weight, synMech, sec;
      weight, synMech, sec, disynapticBias, synWeightFraction :=
        IBranches(c, i, preCellType, IEweight, IIweight, IEdisynBias, ipost, bias0, fraction0);
      var cellModel := CellModels[m];
      if cellModel == "HH_full" {
        weight := weight * c.IFullGain;
      }
      rule := ConnRule(preCellType, ynorm, cellModel, PostCellTypes[ipost], synMech,
        IProbability, weight / c.synsperconn[cellModel], IDelay, c.synsperconn[cellModel],
        synWeightFraction, sec, disynapticBias);
      IRuleFields(c, i, ipost, m);
    }

    /** One pass of the loop body: store the rule of iteration
        (i, ipost, cellModel index m) under its label. */
    method AddIRule(c: IConfig, i: nat, preCellType: string, ynorm: (real, real), IEweight: real, IIweight: real,
                    IEdisynBias: Option<real>, ipost: nat, m: nat, bias0: Option<real>, fraction0: seq<real>)
      returns (disynapticBias: Option<real>, synWeightFraction: seq<real>)
      requires ValidIConfig(c)
      requires i < NumIPre(c) && ipost < 4 && m < 3
      requires preCellType == PreCellTypes[i] && ynorm == IYnorms()[i] && IEdisynBias == IEDisynBiases(c)[i]
      requires IEweight == (c.IEweights + c.IEweights)[i] && IIweight == (c.IIweights + c.IIweights)[i]
      requires ipost >= 2 ==> bias0 == IEdisynBias
      requires preCellType == "PV" && ipost < 2 ==> fraction0 == [1.0]
      modifies this`connParams
      ensures connParams == old(connParams)[ILabel(i, ipost, m) := IRule(c, i, ipost, m)]
      ensures disynapticBias == IEdisynBias
      ensures synWeightFraction == ISynWeightFraction(c, preCellType, ipost)
    {
      var rule;
      rule, disynapticBias, synWeightFraction :=
        IRuleStep(c, i, preCellType, ynorm, IEweight, IIweight, IEdisynBias, ipost, m, bias0, fraction0);
      var ruleLabel := "I_" + CellModels[m] + "_" + [Text.Digit(i)] + "_" + [Text.Digit(ipost)];
      connParams := connParams[ruleLabel := rule];
    }

    /** The three rules of presynaptic type and layer `i` onto post type
        `ipost`, one per cell model. */
    method AddPostTypeRules(c: IConfig, i: nat, preCellType: string, ynorm: (real, real), IEweight: real, IIweight: real,
                            IEdisynBias: Option<real>, ipost: nat, ghost base: map<string, ConnRule>,
                            ghost entries: seq<(string, ConnRule)>, ghost start: nat, bias0: Option<real>, fraction0: seq<real>)
      returns (disynapticBias: Option<real>, synWeightFraction: seq<real>)
      requires ValidIConfig(c) && i < NumIPre(c) && ipost < 4 && start + 3 <= |entries|
      requires forall m :: 0 <= m < 3 ==> entries[start + m] == (ILabel(i, ipost, m), IRule(c, i, ipost, m))
      requires preCellType == PreCellTypes[i] && ynorm == IYnorms()[i] && IEdisynBias == IEDisynBiases(c)[i]
      requires IEweight == (c.IEweights + c.IEweights)[i] && IIweight == (c.IIweights + c.IIweights)[i]
      requires connParams == Inserted(base, entries, start)
      requires ipost >= 2 ==> bias0 == IEdisynBias
      requires preCellType == "PV" && ipost < 2 ==> fraction0 == [1.0]
      modifies this`connParams
      ensures connParams == Inserted(base, entries, start + 3)
      ensures disynapticBias == IEdisynBias
      ensures synWeightFraction == ISynWeightFraction(c, preCellType, ipost)
    {
      disynapticBias, synWeightFraction := bias0, fraction0;
      ghost var pos := start;
      for m := 0 to 3
        invariant pos == start + m
        invariant connParams == Inserted(base, entries, pos)
        invariant 0 < m ==> disynapticBias == IEdisynBias
        invariant 0 < m ==> synWeightFraction == ISynWeightFraction(c, preCellType, ipost)
        invariant ipost >= 2 ==> disynapticBias == IEdisynBias
        invariant preCellType == "PV" && ipost < 2 ==> synWeightFraction == [1.0]
      {
        InsertedNext(base, entries, pos);
        assert entries[pos] == (ILabel(i, ipost, m), IRule(c, i, ipost, m));
        disynapticBias, synWeightFraction :=
          AddIRule(c, i, preCellType, ynorm, IEweight, IIweight, IEdisynBias, ipost, m, disynapticBias, synWeightFraction);
        pos := pos + 1;
      }
    }

    /** One presynaptic iteration of the I->all block: the 12 rules of
        presynaptic type and layer `i`, post type by post type. */
    method AddIRulesOf(c: IConfig, i: nat, preCellType: string, ynorm: (real, real), IEweight: real, IIweight: real,
                       IEdisynBias: Option<real>, ghost base: map<string, ConnRule>, ghost entries: seq<(string, ConnRule)>,
                       bias0: Option<real>, fraction0: seq<real>)
      returns (disynapticBias: Option<real>, synWeightFraction: seq<real>)
      requires ValidIConfig(c) && i < NumIPre(c) && IterationEntries(c, entries, i)
      requires preCellType == PreCellTypes[i] && ynorm == IYnorms()[i] && IEdisynBias == IEDisynBiases(c)[i]
      requires IEweight == (c.IEweights + c.IEweights)[i] && IIweight == (c.IIweights + c.IIweights)[i]
      requires connParams == Inserted(base, entries, 12 * i)
      requires 0 < i ==> fraction0 == [1.0]
      modifies this`connParams
      ensures connParams == Inserted(base, entries, 12 * (i + 1))
      ensures synWeightFraction == [1.0]
    {
      assert PreCellTypes[0] == "SOM" != "PV";
      disynapticBias, synWeightFraction := bias0, fraction0;
      ghost var pos := 12 * i;
      for ipost := 0 to 4
        invariant pos == 12 * i + 3 * ipost
        invariant connParams == Inserted(base, entries, pos)
        invariant 0 < ipost ==> disynapticBias == IEdisynBias
        invariant 0 < ipost ==> synWeightFraction == ISynWeightFraction(c, preCellType, ipost - 1)
        invariant ipost == 0 && 0 < i ==> synWeightFraction == [1.0]
      {
        IterationSlice(c, entries, i, ipost, pos);
        disynapticBias, synWeightFraction := AddPostTypeRules(c, i, preCellType, ynorm, IEweight, IIweight,
          IEdisynBias, ipost, base, entries, pos, disynapticBias, synWeightFraction);
        pos := pos + 3;
      }
      assert pos == 12 * (i + 1);
    }

    /** The body of the I->all block over the settings it reads: the three
        nested loops, presynaptic type and layer outermost. */
    method AddIBlock(c: IConfig)
      requires ValidIConfig(c)
      modifies this`connParams
      ensures connParams == InsertAll(old(connParams), IRuleEntries(c))
    {
      ghost var entries := IRuleEntries(c);
      var ynorms := IYnorms();
      var IEweights := c.IEweights + c.IEweights;
      var IIweights := c.IIweights + c.IIweights;
      var IEdisynBiases := [None, c.IEdisynapticBias, c.IEdisynapticBias, None, c.IEdisynapticBias, c.IEdisynapticBias];
      var disynapticBias: Option<real> := None;
      var synWeightFraction: seq<real> := [];
      var n := Min3(6, |IEweights|, |IIweights|);
      for i := 0 to n
        invariant connParams == Inserted(old(connParams), entries, 12 * i)
        invariant 0 < i ==> synWeightFraction == [1.0]
      {
        IRuleEntriesByIteration(c, i);
        disynapticBias, synWeightFraction := AddIRulesOf(c, i, PreCellTypes[i], ynorms[i], IEweights[i], IIweights[i],
          IEdisynBiases[i], old(connParams), entries, disynapticBias, synWeightFraction);
      }
      InsertedPrefix(old(connParams), entries, 12 * n);
      assert entries[..12 * n] == entries;
    }

    /** The I->all block: insert the rule `I_<model>_<i>_<ipost>` for each
        presynaptic type and layer, each post type and each cell model;
        nothing when the block is disabled. */
    method AddIAllRules(cfg: Config)
      requires cfg.IGainsSet() && ValidIConfig(cfg.ISettings())
      modifies this`connParams
      ensures cfg.IAllEnabled() ==> connParams == InsertAll(old(connParams), IRuleEntries(cfg.ISettings()))
      ensures !cfg.IAllEnabled() ==> connParams == old(connParams)
    {
      if cfg.addConn && (cfg.IEGain.value > 0.0 || cfg.IIGain.value > 0.0) {
        AddIBlock(cfg.ISettings());
      }
    }
  }
}
