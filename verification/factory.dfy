/** Animal factory: a `switch` on the type string; anything other than
    exactly "dog" or "cat" throws. */
module AnimalFactory {
  import opened Outcomes

  datatype Animal = Dog(name: string) | Cat(name: string)

  /** `speak`: the dog barks and the cat meows. */
  function Speak(a: Animal): (s: string)
    ensures s == "Woof!" <==> a.Dog?
    ensures s == "Meow!" <==> a.Cat?
  {
    match a
    case Dog(_) => "Woof!"
    case Cat(_) => "Meow!"
  }

  const INVALID: string := "Invalid animal type"

  /** `createAnimal(type, name)`. */
  function CreateAnimal(kind: string, name: string): (r: Result<Animal>)
    ensures r.Ok? <==> kind == "dog" || kind == "cat"
    ensures r.Ok? ==> r.value.name == name
    ensures kind == "dog" ==> r.Ok? && r.value.Dog? && Speak(r.value) == "Woof!"
    ensures kind == "cat" ==> r.Ok? && r.value.Cat? && Speak(r.value) == "Meow!"
    ensures r.Err? ==> r.message == INVALID
  {
    if kind == "dog" then Ok(Dog(name))
    else if kind == "cat" then Ok(Cat(name))
    else Err(INVALID)
  }

  /** Matching is exact: a capitalised type is rejected. */
  lemma ExactMatch()
    ensures CreateAnimal("Dog", "Buddy") == Err(INVALID)
  {
    assert "Dog"[0] != "dog"[0];
  }

  /** The client run: Buddy says "Woof!", Whiskers says "Meow!". */
  lemma ClientRun()
    ensures CreateAnimal("dog", "Buddy") == Ok(Dog("Buddy"))
    ensures CreateAnimal("cat", "Whiskers") == Ok(Cat("Whiskers"))
  {
  }
}

/** Shape factory: `createShape(type, ...args)` spreads its arguments into the
    chosen constructor; a missing argument is `undefined` (here `None`). */
module ShapeFactory {
  import opened Outcomes

  datatype Shape =
    | Circle(radius: Option<int>)
    | Square(sideLength: Option<int>)
    | Triangle(base: Option<int>, height: Option<int>)

  /** The i-th spread argument. */
  function Arg(args: seq<int>, i: nat): (v: Option<int>)
    ensures i < |args| <==> v.Some?
    ensures i < |args| ==> v.value == args[i]
  {
    if i < |args| then Some(args[i]) else None
  }

  function Unsupported(kind: string): string
  {
    "Unsupported shape type: " + kind
  }

  /** `createShape(type, ...args)`. */
  function CreateShape(kind: string, args: seq<int>): (r: Result<Shape>)
    ensures r.Ok? <==> kind in {"circle", "square", "triangle"}
    ensures kind == "circle" ==> r == Ok(Circle(Arg(args, 0)))
    ensures kind == "square" ==> r == Ok(Square(Arg(args, 0)))
    ensures kind == "triangle" ==> r == Ok(Triangle(Arg(args, 0), Arg(args, 1)))
    ensures r.Err? ==> r.message == Unsupported(kind)
  {
    if kind == "circle" then Ok(Circle(Arg(args, 0)))
    else if kind == "square" then Ok(Square(Arg(args, 0)))
    else if kind == "triangle" then Ok(Triangle(Arg(args, 0), Arg(args, 1)))
    else Err(Unsupported(kind))
  }

  /** The error message names the offending type. */
  lemma ErrorNamesType(kind: string, args: seq<int>)
    requires CreateShape(kind, args).Err?
    ensures var m := CreateShape(kind, args).message;
            |m| >= |kind| && m[|m| - |kind|..] == kind
  {
  }

  /** The client run: circle 5, square 4, triangle 3 by 6. */
  lemma ClientRun()
    ensures CreateShape("circle", [5]) == Ok(Circle(Some(5)))
    ensures CreateShape("square", [4]) == Ok(Square(Some(4)))
    ensures CreateShape("triangle", [3, 6]) == Ok(Triangle(Some(3), Some(6)))
  {
  }
}
