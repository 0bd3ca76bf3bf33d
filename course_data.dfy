/**
 * The course catalogue (src/constants/courseData.js): a constant list of
 * courses and workshops, split by institution into the SEAU offer and the
 * offer of external partners.
 */
module CourseData {
  import Seqs

  /** The three card images the catalogue imports. */
  datatype CardImage = HortaJpg | AlfaceJpg | AulaJpg

  datatype Course = Course(
    id: int,
    tipo: string,
    nome: string,
    local: string,
    instituicao: string,
    publicoAlvo: string,
    inscricaoInicio: string,
    inscricaoFim: string,
    cursoInicio: string,
    cursoFim: string,
    turno: string,
    maxPessoas: int,
    cargaHoraria: int,
    img: CardImage,
    alt: string)

  const Seau: string := "SEAU"

  const AgroecologiaParaIniciantes: Course :=
    Course(1, "Curso", "Agroecologia para Iniciantes", "Parque da Jaqueira", Seau, "Todos os públicos",
           "01/08/2024", "15/08/2024", "20/08/2024", "20/09/2024", "Manhã", 30, 40, HortaJpg,
           "Pessoa trabalhando na horta")
  const CompostagemDomestica: Course :=
    Course(2, "Oficina", "Compostagem Doméstica", "Online (Zoom)", Seau, "Moradores de apartamento",
           "10/08/2024", "25/08/2024", "01/09/2024", "01/09/2024", "Tarde", 50, 4, AlfaceJpg,
           "Mão com terra")
  const CultivoDePancs: Course :=
    Course(3, "Curso", "Cultivo de PANCs", "Horta de Casa Amarela", Seau, "Hortelões e entusiastas",
           "15/08/2024", "30/08/2024", "05/09/2024", "26/09/2024", "Manhã", 25, 32, AulaJpg,
           "Aula de agroecologia")
  const JardinagemVertical: Course :=
    Course(4, "Oficina", "Jardinagem Vertical", "Sede da Prefeitura", "Jardim Urbano Co.",
           "Interessados em pequenos espaços", "20/08/2024", "05/09/2024", "10/09/2024", "10/09/2024",
           "Tarde", 40, 3, HortaJpg, "Horta comunitária")
  const ManejoDePragasOrganico: Course :=
    Course(5, "Curso", "Manejo de Pragas Orgânico", "UFPE - Campus Recife", "Universidade Federal de Pernambuco",
           "Estudantes e agricultores", "01/09/2024", "15/09/2024", "22/09/2024", "13/10/2024",
           "Integral", 20, 60, AlfaceJpg, "Mãos segurando planta")

  /** `courseData`. */
  const Catalogue: seq<Course> := [
    AgroecologiaParaIniciantes, CompostagemDomestica, CultivoDePancs, JardinagemVertical, ManejoDePragasOrganico
  ]

  predicate IsSeau(c: Course) {
    c.instituicao == Seau
  }

  predicate IsExternal(c: Course) {
    c.instituicao != Seau
  }

  /** `filter(c => c.instituicao === 'SEAU')`. */
  function SeauOf(courses: seq<Course>): (r: seq<Course>)
    ensures forall i :: 0 <= i < |r| ==> r[i].instituicao == Seau
    ensures forall i :: 0 <= i < |courses| && courses[i].instituicao == Seau ==> courses[i] in r
    ensures forall i :: 0 <= i < |r| ==> r[i] in courses
  {
    Seqs.Filter(courses, IsSeau)
  }

  /** `filter(c => c.instituicao !== 'SEAU')`. */
  function ExternalOf(courses: seq<Course>): (r: seq<Course>)
    ensures forall i :: 0 <= i < |r| ==> r[i].instituicao != Seau
    ensures forall i :: 0 <= i < |courses| && courses[i].instituicao != Seau ==> courses[i] in r
    ensures forall i :: 0 <= i < |r| ==> r[i] in courses
  {
    Seqs.Filter(courses, IsExternal)
  }

  /**
   * Any catalogue splits into two lists that keep the catalogue's order,
   * share no course, and together hold every course exactly as often as
   * the catalogue does.
   */
  lemma SplitIsPartition(courses: seq<Course>)
    ensures Seqs.IsSubsequence(SeauOf(courses), courses)
    ensures Seqs.IsSubsequence(ExternalOf(courses), courses)
    ensures multiset(SeauOf(courses)) + multiset(ExternalOf(courses)) == multiset(courses)
    ensures |SeauOf(courses)| + |ExternalOf(courses)| == |courses|
    ensures forall i :: 0 <= i < |SeauOf(courses)| ==> SeauOf(courses)[i] !in ExternalOf(courses)
  {
    Seqs.FilterIsSubsequence(courses, IsSeau);
    Seqs.FilterIsSubsequence(courses, IsExternal);
    Seqs.FilterCongruent(courses, Seqs.Not(IsSeau), IsExternal);
    Seqs.FilterPartition(courses, IsSeau);
  }

  const SeauCourses: seq<Course> := SeauOf(Catalogue)
  const ExternalCourses: seq<Course> := ExternalOf(Catalogue)

  function Ids(courses: seq<Course>): (ids: seq<int>)
    ensures |ids| == |courses|
    ensures forall i :: 0 <= i < |courses| ==> ids[i] == courses[i].id
  {
    seq(|courses|, i requires 0 <= i < |courses| => courses[i].id)
  }

  lemma SeauOfShipped()
    ensures SeauCourses == [AgroecologiaParaIniciantes, CompostagemDomestica, CultivoDePancs]
  {
    var front := [AgroecologiaParaIniciantes, CompostagemDomestica, CultivoDePancs];
    var back := [JardinagemVertical, ManejoDePragasOrganico];
    assert Catalogue == front + back;
    assert |JardinagemVertical.instituicao| != |Seau| && |ManejoDePragasOrganico.instituicao| != |Seau|;
    Seqs.FilterConcat(front, back, IsSeau);
    Seqs.FilterAll(front, IsSeau);
    Seqs.FilterCons(JardinagemVertical, [ManejoDePragasOrganico], IsSeau);
    Seqs.FilterCons(ManejoDePragasOrganico, [], IsSeau);
  }

  lemma ExternalOfShipped()
    ensures ExternalCourses == [JardinagemVertical, ManejoDePragasOrganico]
  {
    var front := [AgroecologiaParaIniciantes, CompostagemDomestica, CultivoDePancs];
    var back := [JardinagemVertical, ManejoDePragasOrganico];
    assert Catalogue == front + back;
    assert |JardinagemVertical.instituicao| != |Seau| && |ManejoDePragasOrganico.instituicao| != |Seau|;
    Seqs.FilterConcat(front, back, IsExternal);
    Seqs.FilterAll(back, IsExternal);
    Seqs.FilterCons(AgroecologiaParaIniciantes, [CompostagemDomestica, CultivoDePancs], IsExternal);
    Seqs.FilterCons(CompostagemDomestica, [CultivoDePancs], IsExternal);
    Seqs.FilterCons(CultivoDePancs, [], IsExternal);
  }

  /** On the catalogue as shipped: three SEAU offers, then the two external ones. */
  lemma ShippedSplit()
    ensures Ids(SeauCourses) == [1, 2, 3]
    ensures Ids(ExternalCourses) == [4, 5]
  {
    SeauOfShipped();
    ExternalOfShipped();
  }

  /** The ids, which the page uses as list keys, are distinct. */
  lemma CatalogueIdsDistinct()
    ensures Seqs.NoDuplicates(Ids(Catalogue))
  {
    assert Ids(Catalogue) == [1, 2, 3, 4, 5];
  }
}
