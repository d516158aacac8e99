/** Furniture factories: each concrete factory makes a chair and a sofa of
    one style; the abstract base factory throws from both methods. */
module FurnitureFactory {
  import opened Outcomes

  datatype Style = Modern | Vintage

  datatype Factory = BaseFactory | StyledFactory(style: Style)

  /** `ModernChair`/`VintageChair` and `ModernSofa`/`VintageSofa`. */
  datatype Chair = Chair(style: Style)
  datatype Sofa = Sofa(style: Style)

  function StyleName(s: Style): string
  {
    match s
    case Modern => "modern"
    case Vintage => "vintage"
  }

  function CreateChair(f: Factory): (r: Result<Chair>)
    ensures f.BaseFactory? <==> r.Err?
    ensures r.Err? ==> r.message == "createChair method must be implemented"
    ensures r.Ok? ==> r.value.style == f.style
  {
    match f
    case BaseFactory => Err("createChair method must be implemented")
    case StyledFactory(s) => Ok(Chair(s))
  }

  function CreateSofa(f: Factory): (r: Result<Sofa>)
    ensures f.BaseFactory? <==> r.Err?
    ensures r.Err? ==> r.message == "createSofa method must be implemented"
    ensures r.Ok? ==> r.value.style == f.style
  {
    match f
    case BaseFactory => Err("createSofa method must be implemented")
    case StyledFactory(s) => Ok(Sofa(s))
  }

  /** `ModernChair.sit` and `VintageChair.sit`. */
  function SitChair(c: Chair): (line: string)
    ensures line == "Sitting on a modern chair" <==> c.style == Modern
    ensures line == "Sitting on a vintage chair" <==> c.style == Vintage
  {
    "Sitting on a " + StyleName(c.style) + " chair"
  }

  /** `ModernSofa.sit` and `VintageSofa.sit`. */
  function SitSofa(s: Sofa): (line: string)
    ensures line == "Sitting on a modern sofa" <==> s.style == Modern
    ensures line == "Sitting on a vintage sofa" <==> s.style == Vintage
  {
    "Sitting on a " + StyleName(s.style) + " sofa"
  }

  /** Every concrete factory yields a matching chair and sofa. */
  lemma SameStyle(f: Factory)
    requires f.StyledFactory?
    ensures CreateChair(f).Ok? && CreateSofa(f).Ok?
    ensures CreateChair(f).value.style == CreateSofa(f).value.style
  {
  }

  /** `createFurniture(factory)`: the chair is sat on before the sofa. The
      chair is created first, so the base factory fails with its message. */
  function CreateFurniture(f: Factory): (r: Result<seq<string>>)
    ensures f.BaseFactory? ==> r == Err("createChair method must be implemented")
    ensures f.StyledFactory? ==> r == Ok([SitChair(Chair(f.style)), SitSofa(Sofa(f.style))])
  {
    match CreateChair(f)
    case Err(m) => Err(m)
    case Ok(chair) =>
      match CreateSofa(f)
      case Err(m) => Err(m)
      case Ok(sofa) => Ok([SitChair(chair), SitSofa(sofa)])
  }

  /** The client run: the modern factory's pieces, then the vintage ones. */
  lemma ClientRun()
    ensures CreateFurniture(StyledFactory(Modern)) ==
      Ok(["Sitting on a modern chair", "Sitting on a modern sofa"])
    ensures CreateFurniture(StyledFactory(Vintage)) ==
      Ok(["Sitting on a vintage chair", "Sitting on a vintage sofa"])
  {
    assert SitChair(Chair(Modern)) == "Sitting on a modern chair";
    assert SitSofa(Sofa(Modern)) == "Sitting on a modern sofa";
    assert SitChair(Chair(Vintage)) == "Sitting on a vintage chair";
    assert SitSofa(Sofa(Vintage)) == "Sitting on a vintage sofa";
  }
}

/** Computer factories: gaming and office parts, processed before rendering. */
module ComputerFactory {
  import opened Outcomes

  datatype Setup = Gaming | Office

  datatype Factory = BaseFactory | SetupFactory(setup: Setup)

  datatype Cpu = Cpu(setup: Setup)
  datatype Gpu = Gpu(setup: Setup)

  function SetupName(s: Setup): string
  {
    match s
    case Gaming => "Gaming"
    case Office => "Office"
  }

  function CreateCpu(f: Factory): (r: Result<Cpu>)
    ensures f.BaseFactory? <==> r.Err?
    ensures r.Err? ==> r.message == "createCPU method must be implemented"
    ensures r.Ok? ==> r.value.setup == f.setup
  {
    match f
    case BaseFactory => Err("createCPU method must be implemented")
    case SetupFactory(s) => Ok(Cpu(s))
  }

  function CreateGpu(f: Factory): (r: Result<Gpu>)
    ensures f.BaseFactory? <==> r.Err?
    ensures r.Err? ==> r.message == "createGPU method must be implemented"
    ensures r.Ok? ==> r.value.setup == f.setup
  {
    match f
    case BaseFactory => Err("createGPU method must be implemented")
    case SetupFactory(s) => Ok(Gpu(s))
  }

  /** `GamingCPU.process` and `OfficeCPU.process`. */
  function Process(c: Cpu): (line: string)
    ensures line == "Gaming CPU processing" <==> c.setup == Gaming
    ensures line == "Office CPU processing" <==> c.setup == Office
  {
    assert "Gaming CPU processing"[0] != "Office CPU processing"[0];
    SetupName(c.setup) + " CPU processing"
  }

  /** `GamingGPU.render` and `OfficeGPU.render`. */
  function Render(g: Gpu): (line: string)
    ensures line == "Gaming GPU rendering" <==> g.setup == Gaming
    ensures line == "Office GPU rendering" <==> g.setup == Office
  {
    assert "Gaming GPU rendering"[0] != "Office GPU rendering"[0];
    SetupName(g.setup) + " GPU rendering"
  }

  /** `assembleComputer(factory)`: process, then render. */
  function AssembleComputer(f: Factory): (r: Result<seq<string>>)
    ensures f.BaseFactory? ==> r == Err("createCPU method must be implemented")
    ensures f.SetupFactory? ==> r == Ok([Process(Cpu(f.setup)), Render(Gpu(f.setup))])
  {
    match CreateCpu(f)
    case Err(m) => Err(m)
    case Ok(cpu) =>
      match CreateGpu(f)
      case Err(m) => Err(m)
      case Ok(gpu) => Ok([Process(cpu), Render(gpu)])
  }

  /** The parts of any concrete factory belong to the same setup. */
  lemma SameSetup(f: Factory)
    requires f.SetupFactory?
    ensures CreateCpu(f).Ok? && CreateGpu(f).Ok?
    ensures CreateCpu(f).value.setup == CreateGpu(f).value.setup
  {
  }

  /** The client run: the gaming computer, then the office one. */
  lemma ClientRun()
    ensures AssembleComputer(SetupFactory(Gaming)) ==
      Ok(["Gaming CPU processing", "Gaming GPU rendering"])
    ensures AssembleComputer(SetupFactory(Office)) ==
      Ok(["Office CPU processing", "Office GPU rendering"])
  {
    assert Process(Cpu(Gaming)) == "Gaming CPU processing";
    assert Render(Gpu(Gaming)) == "Gaming GPU rendering";
    assert Process(Cpu(Office)) == "Office CPU processing";
    assert Render(Gpu(Office)) == "Office GPU rendering";
  }
}
