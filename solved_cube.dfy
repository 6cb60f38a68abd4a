/*
 * The solved cube through every stage of the solver: each stage finds that there is
 * nothing to do and returns the empty sequence.
 */
module SolvedCube {
  import opened CubeState
  import opened StageMasks
  import opened Solver
  import opened MaskVectors
  import opened TwoGenVectors

  /** Runs every stage on the solved cube; each answers with no turns. */
  method SolveSolvedCube(fuel: nat)
    returns (four: SearchResult, three: SearchResult, two: SearchResult, one: SearchResult, zero: seq<UInt32>)
    ensures four == Found([]) && three == Found([]) && two == Found([]) && one == Found([])
    ensures zero == []
  {
    var cube := NewCube();
    FourGenMaskOfSolved();
    four := GetFourGenSolution(cube, fuel);
    ThreeGenMaskOfSolved();
    three := GetThreeGenSolution(cube, fuel);
    TwoGenMaskOfSolved();
    TwoGenOfSolved();
    two := GetTwoGenSolution(cube, fuel);
    one := GetOneGenSolution(cube, fuel);
    zero := GetZeroGenSolution(cube);
  }
}
