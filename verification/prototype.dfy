/** Shape prototypes: `clone` builds a new object of the same class with the
    same dimension. Objects carry ids so that "new object" is observable;
    `next` is the next unused id. */
module ShapePrototypes {
  import opened Outcomes

  datatype Shape =
    | BaseShape(id: nat)
    | Circle(id: nat, radius: int)
    | Square(id: nat, sideLength: int)

  /** The `type` field: `null` on the abstract base. */
  function TypeOf(s: Shape): Option<string>
  {
    match s
    case BaseShape(_) => None
    case Circle(_, _) => Some("Circle")
    case Square(_, _) => Some("Square")
  }

  /** `clone`: a fresh object of the same type and size; the base class throws. */
  function Clone(s: Shape, next: nat): (r: Result<Shape>)
    requires s.id < next
    ensures s.BaseShape? <==> r.Err?
    ensures r.Err? ==> r.message == "clone method must be implemented"
    ensures r.Ok? ==> r.value.id == next && r.value.id != s.id && TypeOf(r.value) == TypeOf(s)
    ensures r.Ok? && s.Circle? ==> r.value.Circle? && r.value.radius == s.radius
    ensures r.Ok? && s.Square? ==> r.value.Square? && r.value.sideLength == s.sideLength
  {
    match s
    case BaseShape(_) => Err("clone method must be implemented")
    case Circle(_, radius) => Ok(Circle(next, radius))
    case Square(_, side) => Ok(Square(next, side))
  }

  /** A clone differs from its prototype only in identity. */
  lemma CloneIsCopy(s: Shape, next: nat)
    requires s.id < next && !s.BaseShape?
    ensures Clone(s, next).Ok? && Clone(s, next).value == s.(id := next)
  {
  }

  /** The client run: a circle of radius 5 clones to a circle of radius 5. */
  lemma ClientRun()
    ensures Clone(Circle(0, 5), 1) == Ok(Circle(1, 5))
  {
  }
}

/** Prototype registry: named prototypes in a plain object; `create` clones
    the one registered under a name, or throws. */
module PrototypeRegistry {
  import opened Outcomes

  datatype Vehicle =
    | BaseVehicle(id: nat, kind: string)
    | Car(id: nat)
    | Motorcycle(id: nat)

  /** The `type` field set by each constructor. */
  function TypeOf(v: Vehicle): string
  {
    match v
    case BaseVehicle(_, kind) => kind
    case Car(_) => "Car"
    case Motorcycle(_) => "Motorcycle"
  }

  /** `clone`: a new vehicle of the same class; `next` is an unused id, so
      the copy is never the prototype itself. The base class throws. */
  function Clone(v: Vehicle, next: nat): (r: Result<Vehicle>)
    requires v.id < next
    ensures v.BaseVehicle? <==> r.Err?
    ensures r.Err? ==> r.message == "clone method must be implemented"
    ensures r.Ok? ==> r.value.id == next && r.value.id != v.id && r.value != v
    ensures r.Ok? ==> TypeOf(r.value) == TypeOf(v) && r.value == v.(id := next)
  {
    match v
    case BaseVehicle(_, _) => Err("clone method must be implemented")
    case Car(_) => Ok(Car(next))
    case Motorcycle(_) => Ok(Motorcycle(next))
  }

  datatype Registry = Registry(prototypes: map<string, Vehicle>)

  function NewRegistry(): (r: Registry)
    ensures r.prototypes == map[]
  {
    Registry(map[])
  }

  /** `register`: assign the name, replacing any earlier prototype. */
  function Register(r: Registry, name: string, p: Vehicle): (r': Registry)
    ensures name in r'.prototypes && r'.prototypes[name] == p
    ensures forall n :: n != name ==> (n in r'.prototypes <==> n in r.prototypes)
    ensures forall n :: n != name && n in r.prototypes ==> r'.prototypes[n] == r.prototypes[n]
  {
    Registry(r.prototypes[name := p])
  }

  function NotFound(name: string): string
  {
    "Prototype with name " + name + " not found"
  }

  /** Every registered prototype has an id below `next`. */
  predicate Allocated(r: Registry, next: nat)
  {
    forall n | n in r.prototypes :: r.prototypes[n].id < next
  }

  /** `create(name)`: a clone of the registered prototype, or "not found". */
  function Create(r: Registry, name: string, next: nat): (v: Result<Vehicle>)
    requires Allocated(r, next)
    ensures name in r.prototypes && v.Ok? ==> v.value.id != r.prototypes[name].id
    ensures name !in r.prototypes ==> v == Err(NotFound(name))
    ensures name in r.prototypes ==> v == Clone(r.prototypes[name], next)
  {
    if name in r.prototypes then Clone(r.prototypes[name], next) else Err(NotFound(name))
  }

  /** Register then create returns a new copy of what was registered: equal
      to it except for its identity. */
  lemma RegisterThenCreate(r: Registry, name: string, p: Vehicle, next: nat)
    requires Allocated(r, next) && p.id < next && !p.BaseVehicle?
    ensures Allocated(Register(r, name, p), next)
    ensures Create(Register(r, name, p), name, next).Ok?
    ensures Create(Register(r, name, p), name, next).value.id == next
    ensures TypeOf(Create(Register(r, name, p), name, next).value) == TypeOf(p)
    ensures Create(Register(r, name, p), name, next).value != p
  {
  }

  /** Registering under one name does not change what another name creates. */
  lemma RegisterIsolated(r: Registry, name: string, p: Vehicle, other: string, next: nat)
    requires Allocated(r, next) && p.id < next && other != name
    ensures Allocated(Register(r, name, p), next)
    ensures Create(Register(r, name, p), other, next) == Create(r, other, next)
  {
  }

  /** The client run: car and motorcycle registered, `create('car')` is a Car. */
  lemma ClientRun()
    ensures var reg := Register(Register(NewRegistry(), "car", Car(0)), "motorcycle", Motorcycle(1));
            Create(reg, "car", 2) == Ok(Car(2)) && Create(reg, "truck", 2).Err?
  {
    var reg := Register(Register(NewRegistry(), "car", Car(0)), "motorcycle", Motorcycle(1));
    assert "car" != "motorcycle";
    assert "truck" !in reg.prototypes;
  }
}
