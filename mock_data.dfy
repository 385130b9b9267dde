/** The seed data set written on first start and used outside the desktop
    shell: three projects and five references. */
module MockData {
  import opened Wrappers
  import opened Types

  const MockProjects: seq<Project> := [
    Project("proj-1", "AI in Healthcare", "hsl(210, 80%, 60%)"),
    Project("proj-2", "Quantum Computing", "hsl(280, 80%, 60%)"),
    Project("proj-3", "General Reading", "hsl(30, 80%, 60%)")
  ]

  const MockReferences: seq<Reference> := [
    Reference("ref-1", "Deep Learning for Health Informatics", ["John Doe", "Jane Smith"], 2021,
      Some("Journal of Medical Internet Research"), Some("10.2196/18429"),
      "This paper provides a comprehensive overview of deep learning techniques applied to various health informatics challenges, including electronic health records, medical imaging, and genomics.",
      ["AI", "Deep Learning", "Healthcare"], 5, "proj-1", "2023-01-15T09:30:00.000Z", None, None),
    Reference("ref-2", "A Quantum-Inspired Classical Algorithm for Recommendation Systems", ["Alice Johnson", "Bob Williams"], 2022,
      Some("Nature Quantum Information"), Some("10.1038/s41534-022-00522-3"),
      "We introduce a novel classical algorithm inspired by quantum mechanics for collaborative filtering, showing significant improvements over existing recommendation system models.",
      ["Quantum", "Algorithm", "Machine Learning"], 4, "proj-2", "2023-02-20T14:00:00.000Z", None, None),
    Reference("ref-3", "The Ethical Landscape of Generative AI", ["Carol White"], 2023,
      Some("AI and Ethics"), Some("10.1007/s43681-023-00253-1"),
      "This article explores the ethical considerations and societal impacts of large-scale generative artificial intelligence models, proposing a framework for responsible development.",
      ["AI", "Ethics", "Generative AI"], 3, "proj-3", "2023-03-10T11:45:00.000Z", None, None),
    Reference("ref-4", "Predictive Modeling for Patient Outcomes using EHR Data", ["David Green", "Emily Brown"], 2020,
      Some("JAMIA"), Some("10.1093/jamia/ocaa028"),
      "This study develops and validates a predictive model for patient mortality using structured electronic health record data. The model achieves high accuracy and interpretability.",
      ["Healthcare", "Predictive Modeling", "EHR"], 5, "proj-1", "2023-04-05T16:20:00.000Z", None, None),
    Reference("ref-5", "Shor's Algorithm and its Implications for Cryptography", ["Peter Shor"], 1994,
      Some("Proceedings of the 35th Annual Symposium on Foundations of Computer Science"), Some("10.1109/SFCS.1994.365700"),
      "A landmark paper describing a quantum algorithm for integer factorization, which has profound implications for the security of classical public-key cryptography systems.",
      ["Quantum", "Cryptography", "Algorithm"], 2, "proj-2", "2023-05-01T10:10:00.000Z", None, None)
  ]

  const MockAppData: AppData := AppData(MockProjects, MockReferences)

  /** No two elements of `ids` are equal. */
  predicate Distinct(ids: seq<string>) {
    forall i, j :: 0 <= i < j < |ids| ==> ids[i] != ids[j]
  }

  /** Every reference names a project of the aggregate. */
  predicate ReferentiallyIntact(d: AppData) {
    forall k :: 0 <= k < |d.references| ==> FindProject(d.projects, d.references[k].projectId).Some?
  }

  lemma MockIdsDistinct()
    ensures Distinct(seq(|MockProjects|, k requires 0 <= k < |MockProjects| => MockProjects[k].id))
    ensures Distinct(seq(|MockReferences|, k requires 0 <= k < |MockReferences| => MockReferences[k].id))
  {
  }

  lemma MockReferentiallyIntact()
    ensures ReferentiallyIntact(MockAppData)
  {
  }

  /** Every seed priority is in range and every seed reference has an
      author, which the BibTeX export dereferences. */
  lemma MockReferencesWellFormed()
    ensures forall k :: 0 <= k < |MockReferences| ==>
      ValidPriority(MockReferences[k].priority) && |MockReferences[k].authors| >= 1
  {
  }

  /** None of the seed references carries a status. */
  lemma MockReferencesHaveNoStatus()
    ensures forall k :: 0 <= k < |MockReferences| ==> MockReferences[k].status.None?
  {
  }
}
